/**
 * The DynamoDB-backed authentication state of the WhatsApp session
 * (`useDynamoDBAuthState`, dynamoAuthState.js). Every record lives in one
 * table keyed by `id`: the credentials under `"creds"`, each signal key under
 * `<category>-<id>`. A record is stored as the codec's JSON-safe form of the
 * value spread into an item next to its `id`, and read back through the reviver.
 *
 * The table is a map from key to item. DynamoDB's answers are parameters:
 * `online` says whether a request reaches the table; a request that does not
 * fails the way the source's `catch` sees it.
 */
module AuthState {
  import opened Wrappers
  import opened Base64
  import opened Json
  import Text

  /** A DynamoDB item: attribute name to value. */
  type Item = map<string, Value>

  /** The auth table: primary key `id` to item. */
  type Table = map<string, Item>

  /** A Curve25519 key pair as Baileys keeps it. */
  datatype KeyPair = KeyPair(pub: seq<byte>, priv: seq<byte>)

  /**
   * What `initAuthCreds` draws from key generation and randomness: the noise
   * and identity key pairs, the signed pre-key pair and its signature, the
   * registration id and the 32 random bytes of the ADV secret.
   */
  datatype KeyMaterial = KeyMaterial(
    noiseKey: KeyPair, identityKey: KeyPair, preKey: KeyPair, preKeySignature: seq<byte>,
    registrationId: nat, advSecret: seq<byte>)

  function KeyPairValue(k: KeyPair): Value {
    Obj(map["public" := Bytes(k.pub), "private" := Bytes(k.priv)])
  }

  /** The signed pre-key of fresh credentials: key id 1. */
  function SignedPreKey(m: KeyMaterial): Value {
    Obj(map["keyPair" := KeyPairValue(m.preKey), "signature" := Bytes(m.preKeySignature), "keyId" := Num(1)])
  }

  const AccountSettings: Value := Obj(map["unarchiveChats" := Bool(false)])

  /** `initAuthCreds()`: fresh credentials from the given key material. */
  function InitAuthCreds(m: KeyMaterial): Value {
    Obj(map[
      "noiseKey" := KeyPairValue(m.noiseKey),
      "signedIdentityKey" := KeyPairValue(m.identityKey),
      "signedPreKey" := SignedPreKey(m),
      "registrationId" := Num(m.registrationId),
      "advSecretKey" := Str(Encode(m.advSecret)),
      "processedHistoryMessages" := Arr([]),
      "nextPreKeyId" := Num(1),
      "firstUnuploadedPreKeyId" := Num(1),
      "accountSettings" := AccountSettings])
  }

  /**
   * Fresh credentials are an object with exactly the members Baileys expects,
   * pre-key counters at 1, the ADV secret as the base64 of the random bytes,
   * and no `id` of their own.
   */
  lemma InitAuthCredsShape(m: KeyMaterial)
    ensures var creds := InitAuthCreds(m);
            && creds.Obj?
            && creds.fields.Keys == {"noiseKey", "signedIdentityKey", "signedPreKey", "registrationId",
                                     "advSecretKey", "processedHistoryMessages", "nextPreKeyId",
                                     "firstUnuploadedPreKeyId", "accountSettings"}
            && creds.fields["advSecretKey"].Str? && Decode(creds.fields["advSecretKey"].s) == m.advSecret
            && creds.fields["nextPreKeyId"] == Num(1) && creds.fields["firstUnuploadedPreKeyId"] == Num(1)
            && "id" !in creds.fields
  {
    DecodeEncode(m.advSecret);
  }

  /** Adding a member whose name neither codec function looks at keeps an object tag-free. */
  lemma TagFreeUpdate(fields: map<string, Value>, k: string, v: Value)
    requires TagFree(Obj(fields)) && TagFree(v) && k != "buffer" && k != "type"
    ensures TagFree(Obj(fields[k := v]))
  {
    assert Member(Obj(fields[k := v]), "buffer") == Member(Obj(fields), "buffer");
    assert Member(Obj(fields[k := v]), "type") == Member(Obj(fields), "type");
  }

  lemma KeyPairTagFree(k: KeyPair)
    ensures TagFree(KeyPairValue(k))
  {
    var e: map<string, Value> := map[];
    TagFreeUpdate(e, "public", Bytes(k.pub));
    TagFreeUpdate(e["public" := Bytes(k.pub)], "private", Bytes(k.priv));
  }

  lemma SignedPreKeyTagFree(m: KeyMaterial)
    ensures TagFree(SignedPreKey(m))
  {
    KeyPairTagFree(m.preKey);
    var f0: map<string, Value> := map[];
    var f1 := f0["keyPair" := KeyPairValue(m.preKey)];
    TagFreeUpdate(f0, "keyPair", KeyPairValue(m.preKey));
    var f2 := f1["signature" := Bytes(m.preKeySignature)];
    TagFreeUpdate(f1, "signature", Bytes(m.preKeySignature));
    TagFreeUpdate(f2, "keyId", Num(1));
  }

  /** The members of fresh credentials after `registrationId`, added to a tag-free object. */
  lemma CredsTailTagFree(g: map<string, Value>, m: KeyMaterial)
    requires TagFree(Obj(g))
    ensures TagFree(Obj(g["advSecretKey" := Str(Encode(m.advSecret))]["processedHistoryMessages" := Arr([])]
                         ["nextPreKeyId" := Num(1)]["firstUnuploadedPreKeyId" := Num(1)]
                         ["accountSettings" := AccountSettings]))
  {
    var g5 := g["advSecretKey" := Str(Encode(m.advSecret))];
    TagFreeUpdate(g, "advSecretKey", Str(Encode(m.advSecret)));
    var g6 := g5["processedHistoryMessages" := Arr([])];
    TagFreeUpdate(g5, "processedHistoryMessages", Arr([]));
    var g7 := g6["nextPreKeyId" := Num(1)];
    TagFreeUpdate(g6, "nextPreKeyId", Num(1));
    var g8 := g7["firstUnuploadedPreKeyId" := Num(1)];
    TagFreeUpdate(g7, "firstUnuploadedPreKeyId", Num(1));
    var e: map<string, Value> := map[];
    TagFreeUpdate(e, "unarchiveChats", Bool(false));
    TagFreeUpdate(g8, "accountSettings", AccountSettings);
  }

  /** Fresh credentials hold no object the codec would take for a buffer wrapper, so they survive the store intact. */
  lemma InitAuthCredsTagFree(m: KeyMaterial)
    ensures TagFree(InitAuthCreds(m))
  {
    KeyPairTagFree(m.noiseKey);
    KeyPairTagFree(m.identityKey);
    SignedPreKeyTagFree(m);
    var g0: map<string, Value> := map[];
    var g1 := g0["noiseKey" := KeyPairValue(m.noiseKey)];
    TagFreeUpdate(g0, "noiseKey", KeyPairValue(m.noiseKey));
    var g2 := g1["signedIdentityKey" := KeyPairValue(m.identityKey)];
    TagFreeUpdate(g1, "signedIdentityKey", KeyPairValue(m.identityKey));
    var g3 := g2["signedPreKey" := SignedPreKey(m)];
    TagFreeUpdate(g2, "signedPreKey", SignedPreKey(m));
    var g4 := g3["registrationId" := Num(m.registrationId)];
    TagFreeUpdate(g3, "registrationId", Num(m.registrationId));
    CredsTailTagFree(g4, m);
  }

  /** Index keys `"0"`, `"1"`, ... for the elements of a sequence, as object spread gives them. */
  function IndexKeys(items: seq<Value>): (m: map<string, Value>)
    ensures forall k | k in m :: |k| >= 1 && '0' <= k[0] <= '9'
  {
    Text.NatToStringInjective();
    map i | 0 <= i < |items| :: Text.NatToString(i) := items[i]
  }

  /** Element `i` is copied under the key `"i"`. */
  lemma IndexKeysAt(items: seq<Value>, i: nat)
    requires i < |items|
    ensures Text.NatToString(i) in IndexKeys(items) && IndexKeys(items)[Text.NatToString(i)] == items[i]
  {
    Text.NatToStringInjective();
  }

  /**
   * The own enumerable properties `{...v}` copies: an object's members, the
   * elements of an array or a typed array, the characters of a string; nothing
   * from `null`, a boolean or a number.
   */
  function Spread(v: Value): (m: map<string, Value>)
    ensures v.Obj? ==> m == v.fields
    ensures !v.Obj? ==> "id" !in m
  {
    match v
    case Obj(fields) => fields
    case Arr(items) => IndexKeys(items)
    case Str(s) => IndexKeys(seq(|s|, i requires 0 <= i < |s| => Str([s[i]])))
    case Bytes(b) => IndexKeys(seq(|b|, i requires 0 <= i < |b| => Num(b[i] as int)))
    case _ => map[]
  }

  /**
   * The item `writeData(data, id)` puts: `{id, ...JSON.parse(JSON.stringify(data, replacer))}`.
   * `None` when encoding throws, before any request is made. A record object's
   * own `id` member overrides the key it was written under.
   */
  function ItemFor(data: Value, id: string): Option<Item> {
    match Stringify(data)
    case None => None
    case Some(info) => Some(map["id" := Str(id)] + Spread(info))
  }

  /**
   * Encoding fails exactly when the replacer throws; the item always has an
   * `id`, which is the key written for unless the record object has its own.
   */
  lemma ItemForId(data: Value, id: string)
    ensures ItemFor(data, id).Some? <==> Stringify(data).Some?
    ensures ItemFor(data, id).Some? ==> "id" in ItemFor(data, id).value
    ensures ItemFor(data, id).Some? && (!data.Obj? || IsBufferLike(data) || "id" !in data.fields)
            ==> ItemFor(data, id).value["id"] == Str(id)
    ensures ItemFor(data, id).Some? && data.Obj? && !IsBufferLike(data) && "id" in data.fields
            ==> Stringify(data.fields["id"]).Some? && ItemFor(data, id).value["id"] == Stringify(data.fields["id"]).value
  {
    if Stringify(data).Some? {
      StringifyKeepsKeys(data);
    }
  }

  /** Stringify keeps an object's member names and encodes each member; a wrapper it makes has no `id`. */
  lemma StringifyKeepsKeys(v: Value)
    requires Stringify(v).Some?
    ensures v.Obj? && !IsBufferLike(v) ==> Stringify(v).value.Obj? && Stringify(v).value.fields.Keys == v.fields.Keys
    ensures v.Obj? && !IsBufferLike(v) ==> forall k | k in v.fields :: Stringify(v.fields[k]).Some? && Stringify(v).value.fields[k] == Stringify(v.fields[k]).value
    ensures (!v.Obj? || IsBufferLike(v)) ==> "id" !in Spread(Stringify(v).value)
  {
  }

  /** The key DynamoDB stores an item under: its `id`, which must be a non-empty string. */
  function PutKey(item: Item): (k: Option<string>)
    ensures k.Some? <==> "id" in item && item["id"].Str? && item["id"].s != ""
    ensures k.Some? ==> item["id"] == Str(k.value)
  {
    if "id" in item && item["id"].Str? && item["id"].s != "" then Some(item["id"].s) else None
  }

  /** How a `writeData` call ends: the put succeeded, the put was rejected, or encoding threw. */
  datatype WriteOutcome = Written | PutFailed | Threw

  datatype WriteResult = WriteResult(table: Table, outcome: WriteOutcome)

  /**
   * A `writeData` call once its argument is encoded: the id it was called with
   * and the item it puts (`None` when encoding threw).
   */
  datatype Request = Request(key: string, item: Option<Item>)

  function Encoded(data: Value, id: string): Request {
    Request(id, ItemFor(data, id))
  }

  /** The key a request's item lands on, when it lands at all. */
  function Target(req: Request): (k: Option<string>)
    ensures k.Some? ==> req.item.Some? && PutKey(req.item.value) == k
  {
    match req.item
    case None => None
    case Some(item) => PutKey(item)
  }

  /** `dynamoDB.put` of an encoded request; `online` says whether the put reaches the table. */
  function Apply(table: Table, req: Request, online: bool): (r: WriteResult)
    ensures r.outcome == Threw <==> req.item.None?
    ensures r.outcome != Written ==> r.table == table
    ensures r.outcome == Written <==> online && Target(req).Some?
    ensures r.outcome == Written ==> r.table == table[Target(req).value := req.item.value]
  {
    match req.item
    case None => WriteResult(table, Threw)
    case Some(item) =>
      match PutKey(item)
      case Some(k) => if online then WriteResult(table[k := item], Written) else WriteResult(table, PutFailed)
      case None => WriteResult(table, PutFailed)
  }

  /** `writeData(data, id)` against the table; `online` says whether the put reaches it. */
  function Write(table: Table, data: Value, id: string, online: bool): WriteResult {
    Apply(table, Encoded(data, id), online)
  }

  /** `writeData` throws exactly when encoding does; otherwise only the item's own key can change. */
  lemma WriteOutcomes(table: Table, data: Value, id: string, online: bool)
    ensures var r := Write(table, data, id, online);
            && (r.outcome == Threw <==> Stringify(data).None?)
            && (r.outcome != Written ==> r.table == table)
            && (r.outcome == Written ==> exists k :: Target(Encoded(data, id)) == Some(k) && r.table.Keys == table.Keys + {k}
                                                     && forall k' | k' in table && k' != k :: r.table[k'] == table[k'])
  {
    var r := Write(table, data, id, online);
    if r.outcome == Written {
      var k := Target(Encoded(data, id)).value;
      assert r.table.Keys == table.Keys + {k};
    }
  }

  /**
   * `readData(id)`: the item, stringified without replacer and parsed with the
   * reviver; `None` (the source's `null`) when the request fails, the key is
   * missing (`JSON.parse(undefined)` throws) or the reviver throws.
   */
  function Read(table: Table, id: string, online: bool): (r: Option<Value>)
    ensures r.Some? ==> online && id in table
  {
    if online && id in table then Parse(Plain(Obj(table[id]))) else None
  }

  /** `removeData(id)`: deletes the item when the request goes through; a failure is only logged. */
  function Remove(table: Table, id: string, online: bool): (t: Table)
    ensures id !in t || !online
    ensures forall k | k in table && k != id :: k in t && t[k] == table[k]
    ensures t.Keys <= table.Keys
  {
    if online then table - {id} else table
  }

  // ---------------------------------------------------------------- keys.set

  /** The `writeData` calls `keys.set` makes for one category: `writeData(value, "<category>-<id>")` per entry. */
  function CategoryRequests(category: string, entries: seq<(string, Value)>): (reqs: seq<Request>)
    ensures |reqs| == |entries|
  {
    seq(|entries|, j requires 0 <= j < |entries| => Encoded(entries[j].1, category + "-" + entries[j].0))
  }

  /** The `writeData` calls of a whole `keys.set(data)`, categories and ids in iteration order. */
  function SetRequests(batch: seq<(string, seq<(string, Value)>)>): seq<Request> {
    if batch == [] then []
    else CategoryRequests(batch[0].0, batch[0].1) + SetRequests(batch[1..])
  }

  lemma {:induction false} SetRequestsAppend(a: seq<(string, seq<(string, Value)>)>, b: seq<(string, seq<(string, Value)>)>)
    ensures SetRequests(a + b) == SetRequests(a) + SetRequests(b)
  {
    if a == [] {
      assert a + b == b;
    } else {
      assert (a + b)[0] == a[0];
      assert (a + b)[1..] == a[1..] + b;
      SetRequestsAppend(a[1..], b);
      Text.AppendAssoc(CategoryRequests(a[0].0, a[0].1), SetRequests(a[1..]), SetRequests(b));
    }
  }

  /** Where a run of writes stands: the table, whether every put so far succeeded, whether encoding threw. */
  datatype Progress = Progress(table: Table, allPut: bool, threw: bool)

  /** One write of the loop; once encoding has thrown, no more writes are issued. */
  function Step(p: Progress, req: Request, online: string -> bool): (q: Progress)
    ensures p.threw ==> q == p
  {
    if p.threw then p
    else
      var r := Apply(p.table, req, online(req.key));
      Progress(r.table, p.allPut && r.outcome == Written, r.outcome == Threw)
  }

  /** The requests issued one after the other from `p`. */
  function Run(p: Progress, reqs: seq<Request>, online: string -> bool): Progress {
    if reqs == [] then p
    else Step(Run(p, reqs[..|reqs| - 1], online), reqs[|reqs| - 1], online)
  }

  lemma {:induction false} RunAppend(p: Progress, a: seq<Request>, b: seq<Request>, online: string -> bool)
    ensures Run(p, a + b, online) == Run(Run(p, a, online), b, online)
    decreases |b|
  {
    if b == [] {
      assert a + b == a;
    } else {
      var c := b[..|b| - 1];
      assert (a + b)[..|a + b| - 1] == a + c;
      RunAppend(p, a, c, online);
    }
  }

  /** After encoding throws, the rest of the batch changes nothing. */
  lemma {:induction false} RunAfterThrow(p: Progress, reqs: seq<Request>, online: string -> bool)
    requires p.threw
    ensures Run(p, reqs, online) == p
    decreases |reqs|
  {
    if reqs != [] {
      RunAfterThrow(p, reqs[..|reqs| - 1], online);
    }
  }

  /** `keys.set` changes no item but those its writes target. */
  lemma {:induction false} RunFrame(p: Progress, reqs: seq<Request>, online: string -> bool, k: string)
    requires forall j | 0 <= j < |reqs| :: Target(reqs[j]) != Some(k)
    ensures var q := Run(p, reqs, online); (k in q.table <==> k in p.table) && (k in p.table ==> q.table[k] == p.table[k])
    decreases |reqs|
  {
    if reqs != [] {
      RunFrame(p, reqs[..|reqs| - 1], online, k);
    }
  }

  /** Without an encoding failure nothing throws. */
  lemma {:induction false} RunNoThrow(p: Progress, reqs: seq<Request>, online: string -> bool)
    requires !p.threw
    requires forall j | 0 <= j < |reqs| :: reqs[j].item.Some?
    ensures !Run(p, reqs, online).threw
    decreases |reqs|
  {
    if reqs != [] {
      RunNoThrow(p, reqs[..|reqs| - 1], online);
    }
  }

  /**
   * In a batch where no value fails to encode, the last write to a key decides
   * its item: if no later request targets the key of request `i`, and its put
   * goes through, the table ends up holding request `i`'s item there.
   */
  lemma {:induction false} RunLastWriteWins(p: Progress, reqs: seq<Request>, online: string -> bool, i: nat)
    requires !p.threw
    requires forall j | 0 <= j < |reqs| :: reqs[j].item.Some?
    requires i < |reqs| && Target(reqs[i]).Some? && online(reqs[i].key)
    requires forall j | i < j < |reqs| :: Target(reqs[j]) != Target(reqs[i])
    ensures !Run(p, reqs, online).threw
    ensures Target(reqs[i]).value in Run(p, reqs, online).table
    ensures Run(p, reqs, online).table[Target(reqs[i]).value] == reqs[i].item.value
    decreases |reqs|
  {
    var init := reqs[..|reqs| - 1];
    RunNoThrow(p, init, online);
    if i < |reqs| - 1 {
      RunLastWriteWins(p, init, online, i);
    }
  }

  // ---------------------------------------------------------------- write then read

  /** Each member of a tag-free record round-trips through the codec. */
  lemma MembersRoundTrip(fields: map<string, Value>)
    requires TagFree(Obj(fields))
    ensures forall k | k in fields :: Stringify(fields[k]).Some? && Parse(Stringify(fields[k]).value) == Some(fields[k])
  {
    forall k | k in fields
      ensures Stringify(fields[k]).Some? && Parse(Stringify(fields[k]).value) == Some(fields[k])
    {
      RoundTrip(fields[k]);
    }
  }

  /** Reading back the item of a tag-free record gives the record with its `id`. */
  lemma ReviveObjectItem(fields: map<string, Value>, item: Item, key: string)
    requires TagFree(Obj(fields)) && "id" !in fields
    requires item.Keys == fields.Keys + {"id"} && item["id"] == Str(key)
    requires forall k | k in fields :: Stringify(fields[k]).Some? && item[k] == Stringify(fields[k]).value
    ensures Parse(Plain(Obj(item))) == Some(Obj(fields["id" := Str(key)]))
  {
    MembersRoundTrip(fields);
    assert JsonSafe(Obj(item));
    PlainOfJsonSafe(Obj(item));
    var revived := fields["id" := Str(key)];
    assert Parse(Str(key)) == Some(Str(key));
    ParseMembers(item, revived);
    assert Member(Obj(revived), "buffer") == Member(Obj(fields), "buffer");
    assert Member(Obj(revived), "type") == Member(Obj(fields), "type");
  }

  /**
   * Writing a record object and reading its key back gives the record with
   * the `id` attribute added, buffers at any depth restored.
   */
  lemma ReadAfterWrite(table: Table, fields: map<string, Value>, key: string)
    requires TagFree(Obj(fields)) && "id" !in fields && key != ""
    ensures Write(table, Obj(fields), key, true).outcome == Written
    ensures Read(Write(table, Obj(fields), key, true).table, key, true) == Some(Obj(fields["id" := Str(key)]))
  {
    RecordItem(fields, key);
    var item := ItemFor(Obj(fields), key).value;
    assert PutKey(item) == Some(key);
    ReviveObjectItem(fields, item, key);
  }

  /** The item of a tag-free record without an `id`: the key next to each member, encoded. */
  lemma RecordItem(fields: map<string, Value>, key: string)
    requires TagFree(Obj(fields)) && "id" !in fields
    ensures ItemFor(Obj(fields), key).Some?
    ensures var item := ItemFor(Obj(fields), key).value;
            && item.Keys == fields.Keys + {"id"} && item["id"] == Str(key)
            && forall k | k in fields :: Stringify(fields[k]).Some? && item[k] == Stringify(fields[k]).value
  {
    MembersRoundTrip(fields);
    StringifyObj(fields);
    var item := ItemFor(Obj(fields), key).value;
    assert item == map["id" := Str(key)] + Stringify(Obj(fields)).value.fields;
  }

  /** The item a whole-buffer record is stored as: its key next to the wrapper's members. */
  function BufferItem(key: string, bytes: seq<byte>): Item {
    map["id" := Str(key), "type" := BufferTag, "data" := Str(Encode(bytes))]
  }

  lemma ItemForBytes(bytes: seq<byte>, key: string)
    ensures ItemFor(Bytes(bytes), key) == Some(BufferItem(key, bytes))
  {
    RoundTripBytes(bytes);
    var wrapper := map["type" := BufferTag, "data" := Str(Encode(bytes))];
    assert Spread(Obj(wrapper)) == wrapper;
    assert map["id" := Str(key)] + wrapper == BufferItem(key, bytes);
  }

  /** Reading a stored wrapper item: the reviver turns the whole item, key included, into the buffer. */
  lemma ReviveBufferItem(key: string, bytes: seq<byte>)
    ensures Parse(Plain(Obj(BufferItem(key, bytes)))) == Some(Bytes(bytes))
  {
    BufferItemMembersParse(key, bytes);
    ReviverOfBufferItem(key, bytes);
  }

  /** The members of a stored wrapper item are strings, which parse to themselves. */
  lemma BufferItemMembersParse(key: string, bytes: seq<byte>)
    ensures Parse(Plain(Obj(BufferItem(key, bytes)))) == Reviver(Obj(BufferItem(key, bytes)))
  {
    var item := BufferItem(key, bytes);
    var encoded := Encode(bytes);
    PlainOfJsonSafe(Obj(item));
    assert Parse(Str(key)) == Some(Str(key));
    assert Parse(Str(encoded)) == Some(Str(encoded));
    assert Parse(BufferTag) == Some(BufferTag);
    ParseMembers(item, item);
  }

  /** The reviver decodes a stored wrapper item's `data`; an empty buffer's falsy `""` leads to `[]` as well. */
  lemma ReviverOfBufferItem(key: string, bytes: seq<byte>)
    ensures Reviver(Obj(BufferItem(key, bytes))) == Some(Bytes(bytes))
  {
    var item := BufferItem(key, bytes);
    assert IsTagged(Obj(item));
    DecodeEncode(bytes);
    if bytes == [] {
      assert ReviverSource(Obj(item)) == None;
    } else {
      assert ReviverSource(Obj(item)) == Some(Str(Encode(bytes)));
    }
  }

  /** A buffer written as a whole record reads back as exactly that buffer (the key attribute is absorbed by the reviver). */
  lemma ReadAfterWriteBytes(table: Table, bytes: seq<byte>, key: string)
    requires key != ""
    ensures Write(table, Bytes(bytes), key, true).outcome == Written
    ensures Read(Write(table, Bytes(bytes), key, true).table, key, true) == Some(Bytes(bytes))
  {
    ItemForBytes(bytes, key);
    assert PutKey(BufferItem(key, bytes)) == Some(key);
    ReviveBufferItem(key, bytes);
  }

  /**
   * Writing `null` (how a caller clears a key) stores an item with only its
   * `id`, and reading it back gives the truthy object `{id}` rather than nothing.
   */
  lemma ReadAfterWriteNull(table: Table, key: string)
    requires key != ""
    ensures Write(table, Null, key, true).outcome == Written
    ensures Read(Write(table, Null, key, true).table, key, true) == Some(Obj(map["id" := Str(key)]))
    ensures Truthy(Obj(map["id" := Str(key)]))
  {
    var item := map["id" := Str(key)];
    assert map["id" := Str(key)] + Spread(Null) == item;
    assert ItemFor(Null, key) == Some(item);
    PlainOfJsonSafe(Obj(item));
    assert Parse(Str(key)) == Some(Str(key));
    ParseMembers(item, item);
  }

  /**
   * A record object that carries its own string `id` is stored under that id:
   * the key it was written for is left as it was.
   */
  lemma OwnIdWins(table: Table, fields: map<string, Value>, key: string, own: string)
    requires TagFree(Obj(fields)) && "id" in fields && fields["id"] == Str(own) && own != "" && own != key
    ensures Write(table, Obj(fields), key, true).outcome == Written
    ensures var t := Write(table, Obj(fields), key, true).table;
            own in t && (key in t <==> key in table) && (key in table ==> t[key] == table[key])
  {
    RoundTrip(Obj(fields));
    StringifyObj(fields);
    assert Stringify(Str(own)) == Some(Str(own));
  }

  /** Reading a key after removing it finds nothing. */
  lemma ReadAfterRemove(table: Table, id: string, online: bool)
    ensures Read(Remove(table, id, true), id, online) == None
  {
  }

  /** Fresh credentials saved under `"creds"` are what the next start reads back, with their `id`. */
  lemma FreshCredsPersist(table: Table, m: KeyMaterial)
    ensures var creds := InitAuthCreds(m);
            var t := Write(table, creds, "creds", true);
            t.outcome == Written && Read(t.table, "creds", true) == Some(Obj(creds.fields["id" := Str("creds")]))
  {
    InitAuthCredsShape(m);
    InitAuthCredsTagFree(m);
    ReadAfterWrite(table, InitAuthCreds(m).fields, "creds");
  }

  // ---------------------------------------------------------------- the store

  /** The state `useDynamoDBAuthState` hands to Baileys: the table it talks to and the session credentials. */
  class AuthStore {
    var table: Table
    var creds: Value

    /** `readData(id)` on the current table. */
    function ReadData(id: string, online: bool): (r: Option<Value>)
      reads this
      ensures r.Some? ==> id in table
    {
      Read(table, id, online)
    }

    /** Loads the stored credentials, or makes fresh ones when there are none: `(await readData("creds")) || initAuthCreds()`. */
    constructor (existing: Table, online: bool, material: KeyMaterial)
      ensures table == existing
      ensures Present(Read(existing, "creds", online)) ==> creds == Read(existing, "creds", online).value
      ensures !Present(Read(existing, "creds", online)) ==> creds == InitAuthCreds(material)
    {
      table := existing;
      var stored := Read(existing, "creds", online);
      creds := if Present(stored) then stored.value else InitAuthCreds(material);
    }

    /** The `dynamoDB.put` of an encoded `writeData` call. */
    method Put(req: Request, online: bool) returns (outcome: WriteOutcome)
      modifies this
      ensures var r := Apply(old(table), req, online); table == r.table && outcome == r.outcome
      ensures creds == old(creds)
    {
      var r := Apply(table, req, online);
      table := r.table;
      outcome := r.outcome;
    }

    /** `writeData(data, id)`. */
    method WriteData(data: Value, id: string, online: bool) returns (outcome: WriteOutcome)
      modifies this
      ensures var r := Write(old(table), data, id, online); table == r.table && outcome == r.outcome
      ensures creds == old(creds)
    {
      outcome := Put(Encoded(data, id), online);
    }

    /** `removeData(id)`. */
    method RemoveData(id: string, online: bool)
      modifies this
      ensures table == Remove(old(table), id, online)
      ensures creds == old(creds)
    {
      table := Remove(table, id, online);
    }

    /**
     * `keys.get(type, ids)`: the ids whose record reads back truthy, each
     * with its value; `online(key)` says whether that key's read goes through.
     */
    method KeysGet(category: string, ids: seq<string>, online: string -> bool) returns (data: map<string, Value>)
      ensures forall id :: id in data <==> id in ids && Present(ReadData(category + "-" + id, online(category + "-" + id)))
      ensures forall id | id in data :: ReadData(category + "-" + id, online(category + "-" + id)).Some?
                                         && data[id] == ReadData(category + "-" + id, online(category + "-" + id)).value
    {
      data := map[];
      var i := 0;
      while i < |ids|
        invariant 0 <= i <= |ids|
        invariant forall id :: id in data <==> id in ids[..i] && Present(ReadData(category + "-" + id, online(category + "-" + id)))
        invariant forall id | id in data :: ReadData(category + "-" + id, online(category + "-" + id)).Some?
                                           && data[id] == ReadData(category + "-" + id, online(category + "-" + id)).value
      {
        var key := category + "-" + ids[i];
        var value := ReadData(key, online(key));
        if Present(value) {
          data := data[ids[i] := value.value];
        }
        assert ids[..i + 1] == ids[..i] + [ids[i]];
        i := i + 1;
      }
      assert ids[..i] == ids;
    }

    /**
     * `keys.set(data)`: writes every `(category, id)` value under
     * `<category>-<id>` in iteration order. An encoding failure throws out of
     * the loops, leaving the writes already issued in place; a rejected put lets
     * the loops go on. `ok` is whether the returned promise resolves.
     */
    method KeysSet(batch: seq<(string, seq<(string, Value)>)>, online: string -> bool) returns (ok: bool)
      modifies this
      ensures var q := Run(Progress(old(table), true, false), SetRequests(batch), online);
              table == q.table && ok == (q.allPut && !q.threw)
      ensures creds == old(creds)
    {
      ghost var start := Progress(table, true, false);
      var allPut := true;
      var i := 0;
      while i < |batch|
        invariant 0 <= i <= |batch|
        invariant creds == old(creds)
        invariant Run(start, SetRequests(batch[..i]), online) == Progress(table, allPut, false)
      {
        var threw;
        ghost var stop;
        allPut, threw, stop := SetCategory(batch[i].0, batch[i].1, online, start, SetRequests(batch[..i]), allPut);
        if threw {
          ThrowEndsBatch(start, batch, i, stop, online);
          ok := false;
          return;
        }
        SetRequestsSnoc(batch[..i], batch[i]);
        TakeSnoc(batch, i);
        i := i + 1;
      }
      assert batch[..i] == batch;
      ok := allPut;
    }

    /**
     * The inner loop of `keys.set` for one category, continuing the run from
     * the calls already `issued`; `stop` is the entry whose encoding threw.
     */
    method SetCategory(category: string, entries: seq<(string, Value)>, online: string -> bool,
                       ghost start: Progress, ghost issued: seq<Request>, allPutBefore: bool)
      returns (allPut: bool, threw: bool, ghost stop: nat)
      modifies this
      requires Run(start, issued, online) == Progress(table, allPutBefore, false)
      ensures creds == old(creds)
      ensures !threw ==> Run(start, issued + CategoryRequests(category, entries), online) == Progress(table, allPut, false)
      ensures threw ==> stop < |entries|
                        && Run(start, issued + CategoryRequests(category, entries[..stop + 1]), online) == Progress(table, false, true)
    {
      allPut, threw, stop := allPutBefore, false, 0;
      var j := 0;
      assert issued + CategoryRequests(category, entries[..j]) == issued;
      while j < |entries|
        invariant 0 <= j <= |entries|
        invariant creds == old(creds)
        invariant Run(start, issued + CategoryRequests(category, entries[..j]), online) == Progress(table, allPut, false)
      {
        var req := Encoded(entries[j].1, category + "-" + entries[j].0);
        RunCategorySnoc(start, issued, category, entries, j, online);
        var outcome := Put(req, online(req.key));
        if outcome == Threw {
          threw, stop, allPut := true, j, false;
          return;
        }
        allPut := allPut && outcome == Written;
        j := j + 1;
      }
      assert entries[..j] == entries;
    }

    /** `saveCreds()`: writes the current credentials under `"creds"`; `ok` is whether the promise resolves. */
    method SaveCreds(online: bool) returns (ok: bool)
      modifies this
      ensures var r := Write(old(table), creds, "creds", online); table == r.table && ok == (r.outcome == Written)
      ensures creds == old(creds)
    {
      var outcome := WriteData(creds, "creds", online);
      ok := outcome == Written;
    }
  }

  /** The `writeData` calls of a batch that come after entry `j` of category `i`. */
  function RestRequests(batch: seq<(string, seq<(string, Value)>)>, i: nat, j: nat): seq<Request>
    requires i < |batch| && j < |batch[i].1|
  {
    CategoryRequests(batch[i].0, batch[i].1[j + 1..]) + SetRequests(batch[i + 1..])
  }

  lemma TakeSnoc<T>(s: seq<T>, i: nat)
    requires i < |s|
    ensures s[..i + 1] == s[..i] + [s[i]]
  {
  }

  lemma RunSnoc(p: Progress, reqs: seq<Request>, req: Request, online: string -> bool)
    ensures Run(p, reqs + [req], online) == Step(Run(p, reqs, online), req, online)
  {
    assert (reqs + [req])[..|reqs|] == reqs;
  }

  /** Once a call of the batch throws, the state it left is the batch's end state. */
  lemma ThrowEndsBatch(p: Progress, batch: seq<(string, seq<(string, Value)>)>, i: nat, j: nat, online: string -> bool)
    requires i < |batch| && j < |batch[i].1|
    requires Run(p, SetRequests(batch[..i]) + CategoryRequests(batch[i].0, batch[i].1[..j + 1]), online).threw
    ensures Run(p, SetRequests(batch), online)
            == Run(p, SetRequests(batch[..i]) + CategoryRequests(batch[i].0, batch[i].1[..j + 1]), online)
  {
    var done := SetRequests(batch[..i]) + CategoryRequests(batch[i].0, batch[i].1[..j + 1]);
    SetRequestsAfter(batch, i, j);
    RunAppend(p, done, RestRequests(batch, i, j), online);
    RunAfterThrow(Run(p, done, online), RestRequests(batch, i, j), online);
  }

  lemma CategoryRequestsSnoc(category: string, entries: seq<(string, Value)>, j: nat)
    requires j < |entries|
    ensures CategoryRequests(category, entries[..j + 1])
            == CategoryRequests(category, entries[..j]) + [Encoded(entries[j].1, category + "-" + entries[j].0)]
  {
    assert entries[..j + 1][j] == entries[j];
    assert forall n | 0 <= n < j :: entries[..j + 1][n] == entries[..j][n];
  }

  /** Issuing entry `j` of a category is one more step of the run. */
  lemma RunCategorySnoc(p: Progress, issued: seq<Request>, category: string, entries: seq<(string, Value)>, j: nat,
                        online: string -> bool)
    requires j < |entries|
    ensures Run(p, issued + CategoryRequests(category, entries[..j + 1]), online)
            == Step(Run(p, issued + CategoryRequests(category, entries[..j]), online),
                    Encoded(entries[j].1, category + "-" + entries[j].0), online)
  {
    var req := Encoded(entries[j].1, category + "-" + entries[j].0);
    var done := issued + CategoryRequests(category, entries[..j]);
    CategoryRequestsSnoc(category, entries, j);
    assert issued + CategoryRequests(category, entries[..j + 1]) == done + [req];
    RunSnoc(p, done, req, online);
  }

  lemma CategoryRequestsSplit(category: string, entries: seq<(string, Value)>, n: nat)
    requires n <= |entries|
    ensures CategoryRequests(category, entries) == CategoryRequests(category, entries[..n]) + CategoryRequests(category, entries[n..])
  {
    var whole, left, right := CategoryRequests(category, entries), CategoryRequests(category, entries[..n]), CategoryRequests(category, entries[n..]);
    forall j | 0 <= j < |whole| ensures whole[j] == (left + right)[j] {
      if j < n { assert entries[..n][j] == entries[j]; } else { assert entries[n..][j - n] == entries[j]; }
    }
  }

  lemma SetRequestsSnoc(batch: seq<(string, seq<(string, Value)>)>, last: (string, seq<(string, Value)>))
    ensures SetRequests(batch + [last]) == SetRequests(batch) + CategoryRequests(last.0, last.1)
  {
    SetRequestsAppend(batch, [last]);
    assert [last][1..] == [];
    assert SetRequests([last]) == CategoryRequests(last.0, last.1) + [];
  }

  /** A batch's calls: those of the categories before `i`, of category `i`, and of those after it. */
  lemma SetRequestsSplit(batch: seq<(string, seq<(string, Value)>)>, i: nat)
    requires i < |batch|
    ensures SetRequests(batch) == SetRequests(batch[..i]) + CategoryRequests(batch[i].0, batch[i].1) + SetRequests(batch[i + 1..])
  {
    var back := batch[i..];
    assert batch == batch[..i] + back;
    SetRequestsAppend(batch[..i], back);
    assert back[0] == batch[i] && back[1..] == batch[i + 1..];
    Text.AppendAssoc(SetRequests(batch[..i]), CategoryRequests(batch[i].0, batch[i].1), SetRequests(batch[i + 1..]));
  }

  /** A batch's calls split after entry `j` of category `i`. */
  lemma SetRequestsAfter(batch: seq<(string, seq<(string, Value)>)>, i: nat, j: nat)
    requires i < |batch| && j < |batch[i].1|
    ensures SetRequests(batch) == SetRequests(batch[..i]) + CategoryRequests(batch[i].0, batch[i].1[..j + 1]) + RestRequests(batch, i, j)
  {
    SetRequestsSplit(batch, i);
    CategoryRequestsSplit(batch[i].0, batch[i].1, j + 1);
    var before := SetRequests(batch[..i]);
    var upTo := CategoryRequests(batch[i].0, batch[i].1[..j + 1]);
    var after := CategoryRequests(batch[i].0, batch[i].1[j + 1..]);
    var later := SetRequests(batch[i + 1..]);
    assert RestRequests(batch, i, j) == after + later;
    Text.AppendAssoc(before, upTo, after);
    Text.AppendAssoc(before + upTo, after, later);
  }
}
