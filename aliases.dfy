/**
 * The alias directory both versions of the bot keep per phone number: a list
 * of short forms, each standing for a roll number and password, stored in the
 * `credentials` member of the user's item. The rules for adding, updating,
 * refusing and deleting an alias are the same in test.js and index.js.
 */
module Aliases {
  import opened Wrappers

  /** One entry of `credentials`: `{ shortId, rollNumber, password }`. */
  datatype Alias = Alias(shortId: string, rollNumber: string, password: string)

  /**
   * `list.find(p)`, reported as the position of the first entry satisfying `p`
   * (`None` for `undefined`).
   */
  function FindFirst(list: seq<Alias>, p: Alias -> bool): (r: Option<nat>)
    ensures r.Some? ==> r.value < |list| && p(list[r.value])
    ensures r.Some? ==> forall j | 0 <= j < r.value :: !p(list[j])
    ensures r.None? <==> forall j | 0 <= j < |list| :: !p(list[j])
  {
    if list == [] then None
    else if p(list[0]) then Some(0)
    else match FindFirst(list[1..], p)
      case None => None
      case Some(i) => Some(i + 1)
  }

  /** `credentials.find(cred => cred.rollNumber === roll)`. */
  function FindByRoll(list: seq<Alias>, roll: string): Option<nat> {
    FindFirst(list, (a: Alias) => a.rollNumber == roll)
  }

  /** `credentials.find(cred => cred.shortId === shortId)`. */
  function FindByShortId(list: seq<Alias>, shortId: string): Option<nat> {
    FindFirst(list, (a: Alias) => a.shortId == shortId)
  }

  /** No roll number is linked to two short forms. */
  predicate UniqueRolls(list: seq<Alias>) {
    forall i, j | 0 <= i < j < |list| :: list[i].rollNumber != list[j].rollNumber
  }

  /** No short form appears twice. */
  predicate UniqueShortIds(list: seq<Alias>) {
    forall i, j | 0 <= i < j < |list| :: list[i].shortId != list[j].shortId
  }

  predicate Unique(list: seq<Alias>) {
    UniqueRolls(list) && UniqueShortIds(list)
  }

  /** The three ways a `set` can end: refused, an entry rewritten, an entry added. */
  datatype SetOutcome =
    | Conflict(existing: string)
    | Updated(list: seq<Alias>)
    | Created(list: seq<Alias>)

  /**
   * The rules of `set <shortId> <rollNumber> <password>` on a user's list: a
   * roll number already in the list is refused, naming the short form it is
   * linked to; otherwise the first entry with the same short form gets the new
   * roll number and password; otherwise the alias is appended.
   */
  function SetAlias(list: seq<Alias>, shortId: string, roll: string, password: string): (o: SetOutcome)
    ensures o.Conflict? <==> exists j | 0 <= j < |list| :: list[j].rollNumber == roll
    ensures o.Created? <==> (forall j | 0 <= j < |list| :: list[j].rollNumber != roll && list[j].shortId != shortId)
    ensures o.Created? ==> o.list == list + [Alias(shortId, roll, password)]
    ensures o.Updated? ==> |o.list| == |list|
  {
    match FindByRoll(list, roll)
    case Some(i) => Conflict(list[i].shortId)
    case None =>
      match FindByShortId(list, shortId)
      case Some(i) => Updated(list[i := Alias(shortId, roll, password)])
      case None => Created(list + [Alias(shortId, roll, password)])
  }

  /** A refusal names the short form of the first entry holding that roll number. */
  lemma ConflictNamesHolder(list: seq<Alias>, shortId: string, roll: string, password: string)
    requires SetAlias(list, shortId, roll, password).Conflict?
    ensures exists j | 0 <= j < |list| ::
              list[j].rollNumber == roll && list[j].shortId == SetAlias(list, shortId, roll, password).existing
              && forall k | 0 <= k < j :: list[k].rollNumber != roll
  {
    var j := FindByRoll(list, roll).value;
    assert list[j].rollNumber == roll;
  }

  /**
   * An update rewrites exactly the first entry with that short form and
   * leaves every other entry, and the order, as it was.
   */
  lemma UpdateTouchesOneEntry(list: seq<Alias>, shortId: string, roll: string, password: string)
    requires SetAlias(list, shortId, roll, password).Updated?
    ensures var i := FindByShortId(list, shortId);
            var l := SetAlias(list, shortId, roll, password).list;
            && i.Some? && i.value < |list| && list[i.value].shortId == shortId
            && l[i.value] == Alias(shortId, roll, password)
            && forall j | 0 <= j < |list| && j != i.value :: l[j] == list[j]
  {
  }

  /** After a successful `set`, looking the short form up gives the new roll number and password. */
  lemma SetThenResolve(list: seq<Alias>, shortId: string, roll: string, password: string)
    requires !SetAlias(list, shortId, roll, password).Conflict?
    ensures var l := SetAlias(list, shortId, roll, password).list;
            var i := FindByShortId(l, shortId);
            i.Some? && l[i.value] == Alias(shortId, roll, password)
  {
    var l := SetAlias(list, shortId, roll, password).list;
    match FindByShortId(list, shortId)
    case Some(i) =>
      assert l[i].shortId == shortId;
      assert forall j | 0 <= j < i :: l[j] == list[j];
      assert FindByShortId(l, shortId) == Some(i);
    case None =>
      assert l[|list|].shortId == shortId;
      assert forall j | 0 <= j < |list| :: l[j] == list[j];
      assert FindByShortId(l, shortId) == Some(|list|);
  }

  /** `set` never creates a second entry for a roll number or a short form. */
  lemma SetKeepsUnique(list: seq<Alias>, shortId: string, roll: string, password: string)
    requires Unique(list)
    requires !SetAlias(list, shortId, roll, password).Conflict?
    ensures Unique(SetAlias(list, shortId, roll, password).list)
  {
    var l := SetAlias(list, shortId, roll, password).list;
    match FindByShortId(list, shortId)
    case Some(i) =>
      forall a, b | 0 <= a < b < |l|
        ensures l[a].rollNumber != l[b].rollNumber && l[a].shortId != l[b].shortId
      {
        if a == i {
          assert l[b] == list[b];
        } else if b == i {
          assert l[a] == list[a];
        } else {
          assert l[a] == list[a] && l[b] == list[b];
        }
      }
    case None =>
      forall a, b | 0 <= a < b < |l|
        ensures l[a].rollNumber != l[b].rollNumber && l[a].shortId != l[b].shortId
      {
        assert l[a] == list[a];
        if b < |list| {
          assert l[b] == list[b];
        }
      }
  }

  /** `credentials.filter(cred => cred.shortId !== shortId)`. */
  function RemoveAlias(list: seq<Alias>, shortId: string): (r: seq<Alias>)
    ensures |r| <= |list|
    ensures forall a :: a in r <==> a in list && a.shortId != shortId
    ensures |r| < |list| <==> exists j | 0 <= j < |list| :: list[j].shortId == shortId
  {
    if list == [] then []
    else
      var rest := RemoveAlias(list[1..], shortId);
      assert forall j | 1 <= j < |list| :: list[j] == list[1..][j - 1];
      if list[0].shortId == shortId then rest else [list[0]] + rest
  }

  /** The entries that stay keep their relative order: the filter of a concatenation. */
  lemma {:induction false} RemoveAppend(xs: seq<Alias>, ys: seq<Alias>, shortId: string)
    ensures RemoveAlias(xs + ys, shortId) == RemoveAlias(xs, shortId) + RemoveAlias(ys, shortId)
  {
    if xs == [] {
      assert xs + ys == ys;
    } else {
      assert (xs + ys)[1..] == xs[1..] + ys;
      RemoveAppend(xs[1..], ys, shortId);
    }
  }

  /** With unique short forms, deleting a stored short form removes exactly one entry. */
  lemma {:induction false} RemoveOne(list: seq<Alias>, shortId: string)
    requires UniqueShortIds(list)
    requires exists j | 0 <= j < |list| :: list[j].shortId == shortId
    ensures |RemoveAlias(list, shortId)| == |list| - 1
  {
    if list[0].shortId == shortId {
      RemoveAbsent(list[1..], shortId);
    } else {
      var j :| 0 <= j < |list| && list[j].shortId == shortId;
      assert list[1..][j - 1].shortId == shortId;
      RemoveOne(list[1..], shortId);
    }
  }

  /** Deleting a short form that is not stored changes nothing. */
  lemma {:induction false} RemoveAbsent(list: seq<Alias>, shortId: string)
    requires forall j | 0 <= j < |list| :: list[j].shortId != shortId
    ensures RemoveAlias(list, shortId) == list
  {
    if list != [] {
      RemoveAbsent(list[1..], shortId);
    }
  }

  /** Deleting keeps the directory free of duplicates. */
  lemma {:induction false} RemoveKeepsUnique(list: seq<Alias>, shortId: string)
    requires Unique(list)
    ensures Unique(RemoveAlias(list, shortId))
  {
    if list != [] {
      RemoveKeepsUnique(list[1..], shortId);
      var rest := RemoveAlias(list[1..], shortId);
      if list[0].shortId != shortId {
        var r := [list[0]] + rest;
        forall b | 1 <= b < |r|
          ensures r[0].rollNumber != r[b].rollNumber && r[0].shortId != r[b].shortId
        {
          assert r[b] in rest;
          var k :| 1 <= k < |list| && list[k] == r[b];
        }
      }
    }
  }

  /**
   * The `user_info` table: each phone number's `credentials` list. A number
   * without an item is absent.
   */
  type Users = map<string, seq<Alias>>

  /** `userInfo.Item ? userInfo.Item.credentials || [] : []`. */
  function Stored(users: Users, phone: string): seq<Alias> {
    if phone in users then users[phone] else []
  }

  /** Every stored list is free of duplicate roll numbers and duplicate short forms. */
  predicate DirectoryUnique(users: Users) {
    forall phone | phone in users :: Unique(users[phone])
  }

  /** How each stored alias is listed by `shortforms`. */
  function ListingLine(a: Alias): string {
    "Short ID: " + a.shortId + " - Roll Number: " + a.rollNumber + "\n"
  }
}
