/**
 * The original bot (index.js): one `messages.upsert` handler that does all
 * the work inline, with early returns, over the same `user_info` table and
 * the same alias rules as the refactored bot but with a different
 * precedence: the direct rule, then a `"set "` prefix, then a short-form
 * lookup of the whole text, and only then the `shortforms` and `delete`
 * keywords and the help text.
 *
 * `Upsert` states what one message does; the class `InlineBot` performs it
 * step by step. The decorative symbols of the replies are kept as the
 * characters index.js holds (the emoji there are stored mis-encoded).
 */
module InlineHandler {
  import opened Wrappers
  import Text
  import opened Chat
  import opened Attendance
  import opened Aliases

  const HelpLink := "https://docs.google.com/document/d/185hlWtDBe9BICEBXIqC2EsRZV0N_uBRgdiAjP0Zo2YE/edit?usp=sharing"
  const Assistance := "\n\nFor further assistance, click here for help (" + HelpLink + ")."
  const Arrow := "\U{201A}\U{00FB}\U{00B0}\U{00D4}\U{220F}\U{00E8}"
  const Warning := "\U{201A}\U{00F6}\U{2020}\U{00D4}\U{220F}\U{00E8}"

  const ListingHeading := "Your Saved Short Forms:\n"
  const ListingFooter :=
    "\n" + Arrow + " If want to delete the shortform use keyword delete \n" + Arrow + " Eg. delete shortform_id" + Assistance

  /** The replies index.js sends; `Wording` gives the text of each. */
  datatype Notice =
    | Summary(text: string)
    | DirectFailed
    | LookupFailed
    | SetFailed
    | SetFormatError
    | RollTaken(existing: string)
    | Rewritten(shortId: string)
    | Added(shortId: string)
    | NoShortForms
    | ShortForms(text: string)
    | NothingToDelete
    | DeleteFormatError
    | Removed(shortId: string)
    | NoSuchShortForm(shortId: string)
    | Help

  /** The text `sock.sendMessage` carries for each reply. */
  function Wording(n: Notice): string {
    match n
    case Summary(text) => text
    case DirectFailed => "Invaild roll_number or password\n\nFor further assistance, click here for help(" + HelpLink + ")."
    case LookupFailed => "Error fetching attendance. Please try again."
    case SetFailed => "Invalid roll number or password. Please try again."
    case SetFormatError => "Invalid format. Use: set <short_id> <roll_number> <password>" + Assistance
    case RollTaken(existing) =>
      Warning + " *This roll number is already linked to the short form:* " + existing + "\n\n"
      + Arrow + " *To delete this short form and create a new one, follow these steps:*\n"
      + Arrow + " Type and send: *delete " + existing + "*\n\n"
      + "After deleting, you can create a new short form with the same roll number." + Assistance
    case Rewritten(shortId) => "Updated the short form " + shortId + " with new roll number and password."
    case Added(shortId) =>
      "You can now use this shortform : " + shortId + " to get your attendance \n\n"
      + Arrow + " If you want to get all ur shortforms id \n" + Arrow + " Keyword - *shortforms*"
    case NoShortForms => "You have no saved short forms.\n\nFor further assistance, click here for help(" + HelpLink + ")."
    case ShortForms(text) => text
    case NothingToDelete => "You have no saved short forms to delete." + Assistance
    case DeleteFormatError => "Invalid format. Use: delete <short_id>" + Assistance
    case Removed(shortId) => "Shortform " + shortId + " has been deleted."
    case NoSuchShortForm(shortId) => "No shortform found with the ID: " + shortId + Assistance
    case Help =>
      "\U{F8FF}\U{00FC}\U{00EB}\U{00E3} *Hi there!*\n\n\U{F8FF}\U{00FC}\U{00A7}\U{00F1} *Welcome to the Attendance Bot* for our college.\n\n"
      + "You can use it in two ways:\n*Method 1: Quick Data*\nSend your *roll number* followed by your *password* to get attendance.\n"
      + "_Example:_\n`22L31A0596 password`\n\n*Method 2: Short Form*\nSave a short form for easier use.\nTo save:\n"
      + "`set short_form roll_number password`\n_Example:_\n`set 596 22L31A0596 password`\nAfter saving, just send the short form:\n"
      + "_Example:_\n`596`\n\n\U{F8FF}\U{00FC}\U{00EC}\U{00E3} *Tips:*\n- Check your inputs carefully.\n"
      + "- Use the short form to save time next time!\n- You can see all your shortforms with keyword shortforms\n\n"
      + "For further assistance, click here for help (" + HelpLink + ").\n\nEnjoy! \U{F8FF}\U{00FC}\U{00F2}\U{00E4}"
  }

  const CanSkipPrefix := "You can skip "
  const NeedPrefix := "You need "

  /**
   * `skipInfo`: chosen by the truthiness of the two hour counts, not by the
   * percentage; empty when both are missing or zero.
   */
  function SkipInfo(t: TotalInfo): string {
    if NonZero(t.hoursCanSkip) then
      CanSkipPrefix + Text.IntToString(t.hoursCanSkip.value) + " hours and still maintain above 75%."
    else if NonZero(t.additionalHoursNeeded) then
      NeedPrefix + Text.IntToString(t.additionalHoursNeeded.value) + " more hours to maintain above 75%."
    else ""
  }

  const SubjectHeading := "Subject-wise Attendance:\n"
  const TodayHeading := "Today's Attendance:\n"

  function SubjectLine(s: SubjectRow): string {
    s.name + "  " + s.attendedHeld + "   " + Text.IntToString(s.percentage) + "%\n"
  }

  /**
   * `todayAttendance`: the heading and one line per entry when the first entry
   * names a subject, else the heading and the first entry's message; with no
   * entry at all reading `attendance_summary[0].message` throws (`None`).
   */
  function TodayText(today: seq<TodayEntry>): (r: Option<string>)
    ensures r.None? <==> today == []
  {
    if |today| > 0 && Present(today[0].subject) then Some(TodayHeading + Text.Lines(today, TodayLine))
    else if |today| == 0 then None
    else Some(TodayHeading + Show(today[0].message))
  }

  /** The attendance message index.js builds from a report, or `None` where building it throws. */
  function ReportText(r: Report): (msg: Option<string>)
    ensures msg.None? <==> r.today == []
  {
    match TodayText(r.today)
    case None => None
    case Some(today) =>
      Some("Hi " + r.rollNumber + "\n" + TotalLine(r.total) + "\n" + today + "\n\n" + SkipInfo(r.total) + "\n\n"
           + (SubjectHeading + Text.Lines(r.subjects, SubjectLine)))
  }

  /**
   * The report as index.js assembles it: the subject table and today's part
   * are accumulated line by line, then everything goes into one template.
   */
  method FormatReport(r: Report) returns (msg: Option<string>)
    ensures msg == ReportText(r)
  {
    var subjectTable := Text.AppendLines(SubjectHeading, r.subjects, SubjectLine);
    var totalAttendance := TotalLine(r.total);
    var skipInfo := "";
    if NonZero(r.total.hoursCanSkip) {
      skipInfo := CanSkipPrefix + Text.IntToString(r.total.hoursCanSkip.value) + " hours and still maintain above 75%.";
    } else if NonZero(r.total.additionalHoursNeeded) {
      skipInfo := NeedPrefix + Text.IntToString(r.total.additionalHoursNeeded.value) + " more hours to maintain above 75%.";
    }
    var today := r.today;
    var todayAttendance := TodayHeading;
    if |today| > 0 && Present(today[0].subject) {
      todayAttendance := Text.AppendLines(todayAttendance, today, TodayLine);
    } else if |today| == 0 {
      return None;
    } else {
      todayAttendance := todayAttendance + Show(today[0].message);
    }
    return Some("Hi " + r.rollNumber + "\n" + totalAttendance + "\n" + todayAttendance + "\n\n" + skipInfo + "\n\n"
                + subjectTable);
  }

  /** The reply to an attendance request: the report, or `failure` when the request or the formatting throws. */
  function ReportReply(answer: Option<Payload>, failure: Notice): (n: Notice)
    ensures answer.None? ==> n == failure
    ensures answer.Some? && ReportText(answer.value.report).Some? ==> n == Summary(ReportText(answer.value.report).value)
    ensures answer.Some? && ReportText(answer.value.report).None? ==> n == failure
  {
    match answer
    case None => failure
    case Some(body) =>
      match ReportText(body.report)
      case None => failure
      case Some(text) => Summary(text)
  }

  /**
   * The stored alias the whole text names, when its roll number and password
   * are both non-empty (`if (rollNumber && password)`). Only the first entry
   * with that short form is looked at: when its credentials are empty, a
   * later entry with the same short form is not tried.
   */
  function Lookup(list: seq<Alias>, text: string): (a: Option<Alias>)
    ensures a.Some? ==> a.value.shortId == text && a.value.rollNumber != "" && a.value.password != ""
    ensures a.Some? ==> exists i | 0 <= i < |list| :: list[i] == a.value
    ensures (forall i | 0 <= i < |list| :: list[i].shortId != text) ==> a.None?
    ensures forall i | 0 <= i < |list| && list[i].shortId == text && (forall k | 0 <= k < i :: list[k].shortId != text) ::
              a == (if list[i].rollNumber != "" && list[i].password != "" then Some(list[i]) else None)
  {
    match FindByShortId(list, text)
    case Some(i) => if list[i].rollNumber != "" && list[i].password != "" then Some(list[i]) else None
    case None => None
  }

  /** `if (shortId && rollNumber && password)`: tokens 1 to 3 of the text exist and are non-empty. */
  predicate SetTokens(words: seq<string>) {
    |words| >= 4 && |words[1]| > 0 && |words[2]| > 0 && |words[3]| > 0
  }

  /** The `set` branch: tokens 1 to 3 must be non-empty; the credentials are validated first. */
  function SetEffect(users: Users, phone: string, words: seq<string>, api: AttendanceApi, dbUp: bool): (e: Effect<Notice>)
    ensures OnlyTouches(users, e.users, phone)
    ensures |e.replies| == 1 && e.replies[0].to == phone
  {
    if !SetTokens(words) then
      Effect(users, [Reply(phone, SetFormatError)])
    else if api(words[2], words[3]).None? || !dbUp then Effect(users, [Reply(phone, SetFailed)])
    else
      match SetAlias(Stored(users, phone), words[1], words[2], words[3])
      case Conflict(existing) => Effect(users, [Reply(phone, RollTaken(existing))])
      case Updated(list) => Effect(users[phone := list], [Reply(phone, Rewritten(words[1]))])
      case Created(list) => Effect(users[phone := list], [Reply(phone, Added(words[1]))])
  }

  /** The listing `shortforms` sends for a non-empty list. */
  function Listing(list: seq<Alias>): string {
    ListingHeading + Text.Lines(list, ListingLine) + ListingFooter
  }

  /** `if (shortIdToDelete)`: the second token exists and is non-empty. */
  predicate DeleteToken(words: seq<string>) {
    |words| >= 2 && |words[1]| > 0
  }

  /** The `delete ` branch; the filtered list is written only when it is shorter. */
  function DeleteEffect(users: Users, phone: string, words: seq<string>): (e: Effect<Notice>)
    ensures OnlyTouches(users, e.users, phone)
    ensures |e.replies| == 1 && e.replies[0].to == phone
  {
    if !DeleteToken(words) then Effect(users, [Reply(phone, DeleteFormatError)])
    else
      var list := Stored(users, phone);
      if list == [] then Effect(users, [Reply(phone, NothingToDelete)])
      else
        var kept := RemoveAlias(list, words[1]);
        if |kept| < |list| then Effect(users[phone := kept], [Reply(phone, Removed(words[1]))])
        else Effect(users, [Reply(phone, NoSuchShortForm(words[1]))])
  }

  /** The `shortforms` branch. */
  function ShowEffect(users: Users, phone: string): (e: Effect<Notice>)
    ensures e.users == users && |e.replies| == 1 && e.replies[0].to == phone
  {
    if Stored(users, phone) != [] then Effect(users, [Reply(phone, ShortForms(Listing(Stored(users, phone))))])
    else Effect(users, [Reply(phone, NoShortForms)])
  }

  /** What remains once no short form matched: `shortforms`, `delete `, or the help text. */
  function Keywords(users: Users, phone: string, text: string, words: seq<string>): (e: Effect<Notice>)
    ensures OnlyTouches(users, e.users, phone)
    ensures |e.replies| == 1 && e.replies[0].to == phone
  {
    var command := Text.Lower(text);
    if command == "shortforms" then ShowEffect(users, phone)
    else if Text.StartsWith(command, "delete ") then DeleteEffect(users, phone, words)
    else Effect(users, [Reply(phone, Help)])
  }

  /** What the `messages.upsert` handler does with one message. */
  function Upsert(users: Users, m: Message, api: AttendanceApi, dbUp: bool): Effect<Notice> {
    if m.fromMe || MessageText(m) == "" then Effect(users, [])
    else Handle(users, m.sender, MessageText(m), api, dbUp)
  }

  /** The handler once a non-empty text from someone else is in hand. */
  function Handle(users: Users, phone: string, text: string, api: AttendanceApi, dbUp: bool): Effect<Notice> {
    var words := Words(text);
    if IsDirect(words) then Effect(users, [Reply(phone, ReportReply(api(words[0], words[1]), DirectFailed))])
    else if Text.StartsWith(Text.Lower(text), "set ") then SetEffect(users, phone, words, api, dbUp)
    else if !dbUp then Effect(users, [])
    else
      match Lookup(Stored(users, phone), text)
      case Some(a) => Effect(users, [Reply(phone, ReportReply(api(a.rollNumber, a.password), LookupFailed))])
      case None => Keywords(users, phone, text, words)
  }

  /** An own message, or one without text, changes nothing and gets no reply. */
  lemma UpsertIgnores(users: Users, m: Message, api: AttendanceApi, dbUp: bool)
    requires m.fromMe || MessageText(m) == ""
    ensures Upsert(users, m, api, dbUp) == Effect(users, [])
  {
  }

  /**
   * A message touches at most the sender's entry of the table and gets at
   * most one reply, always to the sender.
   */
  lemma UpsertFrame(users: Users, m: Message, api: AttendanceApi, dbUp: bool)
    ensures var e := Upsert(users, m, api, dbUp);
            && OnlyTouches(users, e.users, m.sender)
            && |e.replies| <= 1
            && forall i | 0 <= i < |e.replies| :: e.replies[i].to == m.sender
  {
    if !m.fromMe && MessageText(m) != "" {
      HandleFrame(users, m.sender, MessageText(m), api, dbUp);
    }
  }

  lemma HandleFrame(users: Users, phone: string, text: string, api: AttendanceApi, dbUp: bool)
    ensures var e := Handle(users, phone, text, api, dbUp);
            && OnlyTouches(users, e.users, phone)
            && |e.replies| <= 1
            && forall i | 0 <= i < |e.replies| :: e.replies[i].to == phone
  {
    var words := Words(text);
    if !IsDirect(words) && Text.StartsWith(Text.Lower(text), "set ") {
      assert Handle(users, phone, text, api, dbUp) == SetEffect(users, phone, words, api, dbUp);
    } else if !IsDirect(words) && dbUp && Lookup(Stored(users, phone), text).None? {
      assert Handle(users, phone, text, api, dbUp) == Keywords(users, phone, text, words);
    }
  }

  /** Two words with a digit first get the attendance report and nothing else happens. */
  lemma UpsertDirectFirst(users: Users, m: Message, api: AttendanceApi, dbUp: bool)
    requires !m.fromMe && IsDirect(Words(MessageText(m)))
    ensures var words := Words(MessageText(m));
            Upsert(users, m, api, dbUp) == Effect(users, [Reply(m.sender, ReportReply(api(words[0], words[1]), DirectFailed))])
  {
  }

  /**
   * Unlike the refactored bot, `set` writes only when the attendance endpoint
   * accepted the roll number and password, and the table answered.
   */
  lemma SetWritesOnlyValidated(users: Users, phone: string, words: seq<string>, api: AttendanceApi, dbUp: bool)
    ensures var e := SetEffect(users, phone, words, api, dbUp);
            e.users != users ==>
              && SetTokens(words)
              && api(words[2], words[3]).Some? && dbUp
              && !SetAlias(Stored(users, phone), words[1], words[2], words[3]).Conflict?
              && e.users == users[phone := SetAlias(Stored(users, phone), words[1], words[2], words[3]).list]
  {
  }

  /**
   * A stored short form named by the whole text is answered with its
   * attendance before the keywords are looked at: storing the short form
   * `shortforms` hides the listing.
   */
  lemma LookupBeforeKeywords(users: Users, m: Message, api: AttendanceApi, i: nat)
    requires !m.fromMe && MessageText(m) != ""
    requires !IsDirect(Words(MessageText(m))) && !Text.StartsWith(Text.Lower(MessageText(m)), "set ")
    requires var list := Stored(users, m.sender);
             && i < |list| && list[i].shortId == MessageText(m)
             && (forall k | 0 <= k < i :: list[k].shortId != MessageText(m))
             && list[i].rollNumber != "" && list[i].password != ""
    ensures var a := Stored(users, m.sender)[i];
            Upsert(users, m, api, true)
              == Effect(users, [Reply(m.sender, ReportReply(api(a.rollNumber, a.password), LookupFailed))])
  {
  }

  /**
   * Text no stored short form answers goes to the keywords in index.js's
   * order: `shortforms` (whole text, any case), then a `delete ` prefix,
   * and the help text for everything else.
   */
  lemma KeywordsInOrder(users: Users, m: Message, api: AttendanceApi)
    requires !m.fromMe && MessageText(m) != ""
    requires !IsDirect(Words(MessageText(m))) && !Text.StartsWith(Text.Lower(MessageText(m)), "set ")
    requires Lookup(Stored(users, m.sender), MessageText(m)).None?
    ensures var command := Text.Lower(MessageText(m));
            var e := Upsert(users, m, api, true);
            && (command == "shortforms" ==> e == ShowEffect(users, m.sender))
            && (command != "shortforms" && Text.StartsWith(command, "delete ") ==>
                  e == DeleteEffect(users, m.sender, Words(MessageText(m))))
            && (command != "shortforms" && !Text.StartsWith(command, "delete ") ==>
                  e == Effect(users, [Reply(m.sender, Help)]))
  {
    assert Upsert(users, m, api, true) == Keywords(users, m.sender, MessageText(m), Words(MessageText(m)));
  }

  /** `set` refuses missing tokens with the format error, and a failed validation or table with `SetFailed`, writing nothing. */
  lemma SetRefusals(users: Users, phone: string, words: seq<string>, api: AttendanceApi, dbUp: bool)
    ensures var e := SetEffect(users, phone, words, api, dbUp);
            && (!SetTokens(words) ==> e == Effect(users, [Reply(phone, SetFormatError)]))
            && (SetTokens(words) && (api(words[2], words[3]).None? || !dbUp) ==> e == Effect(users, [Reply(phone, SetFailed)]))
  {
  }

  /**
   * A roll number that is already stored is refused with the short form it
   * is linked to, and the table is left as it was.
   */
  lemma SetConflictWritesNothing(users: Users, phone: string, words: seq<string>, api: AttendanceApi)
    requires SetTokens(words) && api(words[2], words[3]).Some?
    requires exists j | 0 <= j < |Stored(users, phone)| :: Stored(users, phone)[j].rollNumber == words[2]
    ensures var e := SetEffect(users, phone, words, api, true);
            && e.users == users
            && exists j | 0 <= j < |Stored(users, phone)| ::
                 Stored(users, phone)[j].rollNumber == words[2]
                 && e.replies == [Reply(phone, RollTaken(Stored(users, phone)[j].shortId))]
  {
    ConflictNamesHolder(Stored(users, phone), words[1], words[2], words[3]);
  }

  /**
   * An accepted `set` of a new roll number writes the whole list back: the
   * reply says whether the short form was rewritten or added, and the short
   * form now resolves to the new roll number and password.
   */
  lemma SetPersistsList(users: Users, phone: string, words: seq<string>, api: AttendanceApi)
    requires SetTokens(words) && api(words[2], words[3]).Some?
    requires forall j | 0 <= j < |Stored(users, phone)| :: Stored(users, phone)[j].rollNumber != words[2]
    ensures var e := SetEffect(users, phone, words, api, true);
            var list := Stored(users, phone);
            && phone in e.users
            && e.users == users[phone := e.users[phone]]
            && e.replies == [Reply(phone, if FindByShortId(list, words[1]).Some? then Rewritten(words[1]) else Added(words[1]))]
            && (FindByShortId(list, words[1]).None? ==> e.users[phone] == list + [Alias(words[1], words[2], words[3])])
            && FindByShortId(e.users[phone], words[1]).Some?
            && e.users[phone][FindByShortId(e.users[phone], words[1]).value] == Alias(words[1], words[2], words[3])
  {
    var list := Stored(users, phone);
    SetThenResolve(list, words[1], words[2], words[3]);
  }

  /**
   * `delete ` writes only when the filter removed an entry: it then stores
   * the filtered list, the short form no longer resolves, and the reply
   * confirms it. Otherwise it says why nothing was deleted.
   */
  lemma DeleteWritesOnlyOnRemoval(users: Users, phone: string, words: seq<string>)
    ensures var e := DeleteEffect(users, phone, words);
            var list := Stored(users, phone);
            && (e.users != users ==> DeleteToken(words) && exists j | 0 <= j < |list| :: list[j].shortId == words[1])
            && (!DeleteToken(words) ==> e == Effect(users, [Reply(phone, DeleteFormatError)]))
            && (DeleteToken(words) && list == [] ==> e == Effect(users, [Reply(phone, NothingToDelete)]))
            && (DeleteToken(words) && list != [] && (forall j | 0 <= j < |list| :: list[j].shortId != words[1]) ==>
                  e == Effect(users, [Reply(phone, NoSuchShortForm(words[1]))]))
            && (DeleteToken(words) && (exists j | 0 <= j < |list| :: list[j].shortId == words[1]) ==>
                  && e.users == users[phone := RemoveAlias(list, words[1])]
                  && FindByShortId(e.users[phone], words[1]).None?
                  && e.replies == [Reply(phone, Removed(words[1]))])
  {
  }

  /** `shortforms` lists every stored alias in storage order, alias `i` after aliases `0 .. i-1`. */
  lemma ListingInOrder(list: seq<Alias>, i: nat)
    requires i < |list|
    ensures Listing(list)
            == ListingHeading + (Text.Lines(list[..i], ListingLine) + ListingLine(list[i]) + Text.Lines(list[i + 1..], ListingLine))
               + ListingFooter
  {
    Text.LinesAt(list, i, ListingLine);
  }

  /**
   * The skip line depends on truthiness only: it advertises skippable hours
   * exactly when `hours_can_skip` is non-zero, the hours needed exactly when
   * only `additional_hours_needed` is, and is empty otherwise.
   */
  lemma SkipInfoByTruthiness(t: TotalInfo)
    ensures CanSkipPrefix <= SkipInfo(t) <==> NonZero(t.hoursCanSkip)
    ensures NeedPrefix <= SkipInfo(t) <==> !NonZero(t.hoursCanSkip) && NonZero(t.additionalHoursNeeded)
    ensures SkipInfo(t) == "" <==> !NonZero(t.hoursCanSkip) && !NonZero(t.additionalHoursNeeded)
  {
    var line := SkipInfo(t);
    if NonZero(t.hoursCanSkip) {
      Text.PrefixAppend(CanSkipPrefix, Text.IntToString(t.hoursCanSkip.value));
      Text.PrefixAppend(CanSkipPrefix + Text.IntToString(t.hoursCanSkip.value), " hours and still maintain above 75%.");
      assert line[4] == 'c';
    } else if NonZero(t.additionalHoursNeeded) {
      Text.PrefixAppend(NeedPrefix, Text.IntToString(t.additionalHoursNeeded.value));
      Text.PrefixAppend(NeedPrefix + Text.IntToString(t.additionalHoursNeeded.value), " more hours to maintain above 75%.");
      assert line[4] == 'n';
    }
  }

  /** No message ever stores a second entry for a roll number or a short form. */
  lemma UpsertKeepsDirectoryUnique(users: Users, m: Message, api: AttendanceApi, dbUp: bool)
    requires DirectoryUnique(users)
    ensures DirectoryUnique(Upsert(users, m, api, dbUp).users)
  {
    if !m.fromMe && MessageText(m) != "" {
      HandleKeepsUnique(users, m.sender, MessageText(m), api, dbUp);
    }
  }

  lemma HandleKeepsUnique(users: Users, phone: string, text: string, api: AttendanceApi, dbUp: bool)
    requires DirectoryUnique(users)
    ensures DirectoryUnique(Handle(users, phone, text, api, dbUp).users)
  {
    var words := Words(text);
    var list := Stored(users, phone);
    var e := Handle(users, phone, text, api, dbUp);
    if IsDirect(words) {
    } else if Text.StartsWith(Text.Lower(text), "set ") {
      assert e == SetEffect(users, phone, words, api, dbUp);
      if SetTokens(words) && api(words[2], words[3]).Some? && dbUp && !SetAlias(list, words[1], words[2], words[3]).Conflict? {
        SetKeepsUnique(list, words[1], words[2], words[3]);
      }
    } else if dbUp && Lookup(list, text).None? && Text.Lower(text) != "shortforms"
              && Text.StartsWith(Text.Lower(text), "delete ") {
      assert e == DeleteEffect(users, phone, words);
      if DeleteToken(words) {
        RemoveKeepsUnique(list, words[1]);
      }
    }
  }

  /** The bot's state: the `user_info` table and the replies sent so far. */
  class InlineBot {
    var users: Users
    var sent: seq<Reply<Notice>>

    constructor(users: Users)
      ensures this.users == users && sent == []
    {
      this.users := users;
      sent := [];
    }

    method Send(to: string, n: Notice)
      modifies this
      ensures users == old(users) && sent == old(sent) + [Reply(to, n)]
    {
      sent := sent + [Reply(to, n)];
    }

    /** The `messages.upsert` handler for one message. */
    method HandleUpsert(m: Message, api: AttendanceApi, dbUp: bool)
      modifies this
      ensures var e := Upsert(old(users), m, api, dbUp);
              users == e.users && sent == old(sent) + e.replies
    {
      if m.fromMe {
        return;
      }
      var msgText := MessageText(m);
      if msgText == "" {
        return;
      }
      HandleText(msgText, m.sender, api, dbUp);
    }

    /** The body of the handler: the direct rule, `set `, the short-form lookup, then the keywords. */
    method HandleText(msgText: string, fromNumber: string, api: AttendanceApi, dbUp: bool)
      modifies this
      ensures var e := Handle(old(users), fromNumber, msgText, api, dbUp);
              users == e.users && sent == old(sent) + e.replies
    {
      var words := Words(msgText);
      if IsDirect(words) {
        var reply := AttendanceReply(api(words[0], words[1]), DirectFailed);
        Send(fromNumber, reply);
        return;
      }
      if Text.StartsWith(Text.Lower(msgText), "set ") {
        SetCommand(words, fromNumber, api, dbUp);
        return;
      }
      if !dbUp {
        return;
      }
      var credentials := Stored(users, fromNumber);
      var matching := Lookup(credentials, msgText);
      if matching.Some? {
        var reply := AttendanceReply(api(matching.value.rollNumber, matching.value.password), LookupFailed);
        Send(fromNumber, reply);
      } else if Text.Lower(msgText) == "shortforms" {
        ShowShortForms(fromNumber);
      } else if Text.StartsWith(Text.Lower(msgText), "delete ") {
        DeleteCommand(words, fromNumber);
      } else {
        Send(fromNumber, Help);
      }
    }

    /** The `try` block around a request and the report: the report, or `failure`. */
    method AttendanceReply(answer: Option<Payload>, failure: Notice) returns (n: Notice)
      ensures n == ReportReply(answer, failure)
    {
      if answer.None? {
        return failure;
      }
      var report := FormatReport(answer.value.report);
      n := if report.Some? then Summary(report.value) else failure;
    }

    /** The `set` branch: validate, find by roll number, then by short form, rewrite or append, reply, write. */
    method SetCommand(words: seq<string>, fromNumber: string, api: AttendanceApi, dbUp: bool)
      modifies this
      ensures var e := SetEffect(old(users), fromNumber, words, api, dbUp);
              users == e.users && sent == old(sent) + e.replies
    {
      if !SetTokens(words) {
        Send(fromNumber, SetFormatError);
        return;
      }
      var shortId, rollNumber, password := words[1], words[2], words[3];
      var response := api(rollNumber, password);
      if response.None? || !dbUp {
        Send(fromNumber, SetFailed);
        return;
      }
      var userCredentials := Stored(users, fromNumber);
      var existingRollNumber := FindByRoll(userCredentials, rollNumber);
      if existingRollNumber.Some? {
        Send(fromNumber, RollTaken(userCredentials[existingRollNumber.value].shortId));
        return;
      }
      var existingShortId := FindByShortId(userCredentials, shortId);
      if existingShortId.Some? {
        var i := existingShortId.value;
        userCredentials := userCredentials[i := userCredentials[i].(rollNumber := rollNumber, password := password)];
        Send(fromNumber, Rewritten(shortId));
      } else {
        userCredentials := userCredentials + [Alias(shortId, rollNumber, password)];
        Send(fromNumber, Added(shortId));
      }
      users := users[fromNumber := userCredentials];
    }

    /** The `shortforms` branch: one line per stored alias, in storage order. */
    method ShowShortForms(fromNumber: string)
      modifies this
      ensures var e := ShowEffect(old(users), fromNumber);
              users == e.users && sent == old(sent) + e.replies
    {
      var credentials := Stored(users, fromNumber);
      if credentials != [] {
        var shortformMessage := Text.AppendLines(ListingHeading, credentials, ListingLine);
        shortformMessage := shortformMessage + ListingFooter;
        Send(fromNumber, ShortForms(shortformMessage));
      } else {
        Send(fromNumber, NoShortForms);
      }
    }

    /** The `delete ` branch: writes the filtered list only when it is shorter. */
    method DeleteCommand(words: seq<string>, fromNumber: string)
      modifies this
      ensures var e := DeleteEffect(old(users), fromNumber, words);
              users == e.users && sent == old(sent) + e.replies
    {
      if !DeleteToken(words) {
        Send(fromNumber, DeleteFormatError);
        return;
      }
      var shortIdToDelete := words[1];
      var credentials := Stored(users, fromNumber);
      if credentials != [] {
        var updatedCredentials := RemoveAlias(credentials, shortIdToDelete);
        if |updatedCredentials| < |credentials| {
          users := users[fromNumber := updatedCredentials];
          Send(fromNumber, Removed(shortIdToDelete));
        } else {
          Send(fromNumber, NoSuchShortForm(shortIdToDelete));
        }
      } else {
        Send(fromNumber, NothingToDelete);
      }
    }
  }
}
