/**
 * The refactored bot (test.js): `handleIncomingMessages` and the command
 * handlers it routes to, over the `user_info` table.
 *
 * The table is `users`, a map from phone number to the `credentials` list of
 * that number's item; a number without an item is absent from the map. Every
 * reply goes to `sent`. The attendance and skip endpoints are the parameters
 * `api` and `skipApi`; `dbUp` says whether the table answers (when it does
 * not, each `get` throws).
 *
 * `Respond` states what one incoming message does, as a new table and the
 * replies sent; the class `Bot` performs it step by step as the handlers do.
 */
module Router {
  import opened Wrappers
  import Text
  import opened Chat
  import opened Attendance
  import opened Aliases

  const HelpLink := "https://docs.google.com/document/d/185hlWtDBe9BICEBXIqC2EsRZV0N_uBRgdiAjP0Zo2YE/edit?usp=sharing"
  const HelpFooter := "\n\nFor help, click here: " + HelpLink

  const ListingHeading := "Your Saved Short Forms:\n"
  const ListingFooter := "\nTo delete a short form, type: delete <short_id>" + HelpFooter

  /** The replies test.js sends; `Wording` gives the text of each. */
  datatype Notice =
    | Summary(text: string)
    | InvalidCredentials
    | SetFormatError
    | SetFailed
    | RollTaken(existing: string)
    | Rewritten(shortId: string)
    | Added(shortId: string)
    | NotFound
    | DeleteFormatError
    | NothingToDelete
    | Removed(shortId: string)
    | NoSuchShortForm(shortId: string)
    | NoShortForms
    | ShortForms(text: string)
    | Help
    | Skip(text: string)

  /** The text `sock.sendMessage` carries for each reply. */
  function Wording(n: Notice): string {
    match n
    case Summary(text) => text
    case InvalidCredentials => "Invalid roll number or password." + HelpFooter
    case SetFormatError => "Invalid format. Use: set <short_id> <roll_number> <password>" + HelpFooter
    case SetFailed => "Invalid roll number or password. Please try again."
    case RollTaken(existing) =>
      "\U{26A0}\U{FE0F} This roll number is already linked to short form: " + existing
      + "\n\nTo delete it, type: delete " + existing + HelpFooter
    case Rewritten(shortId) => "Updated the short form " + shortId + " with new roll number and password."
    case Added(shortId) => "Short form saved: " + shortId + "\n\nTo view all, type: shortforms"
    case NotFound => "Short form not found."
    case DeleteFormatError => "Invalid format. Use: delete <short_id>" + HelpFooter
    case NothingToDelete => "You have no saved short forms to delete." + HelpFooter
    case Removed(shortId) => "Short form " + shortId + " has been deleted."
    case NoSuchShortForm(shortId) => "No short form found with the ID: " + shortId + HelpFooter
    case NoShortForms => "You have no saved short forms." + HelpFooter
    case ShortForms(text) => text
    case Help =>
      "\U{1F44B} *Hi there!*\n  \n\U{1F916} *Welcome to the Attendance Bot* for our college.\n  \n"
      + "*Method 1: Quick Data*\nSend your *roll number* followed by your *password*.\n_Example:_\n`22L31A0596 password`\n  \n"
      + "*Method 2: Short Form*\nSave a short form for easier use.\nTo save, type:\n`set short_form roll_number password`\n"
      + "_Example:_\n`set 596 22L31A0596 password`\n  \nTo delete a saved short form:\n`delete short_form_id`\n  \n"
      + "To view all saved short forms, type:\n`shortforms`\n  \nFor help, click here: " + HelpLink + "\n  \nEnjoy! \U{1F60A}"
    case Skip(text) => text
  }

  /** Where `handleIncomingMessages` sends a message. */
  datatype Route =
    | Ignore
    | Direct(roll: string, password: string)
    | SetRoute(words: seq<string>)
    | DeleteRoute(words: seq<string>)
    | ShowRoute
    | SkipRoute(words: seq<string>)
    | LogoutRoute
    | Retrieve(text: string)

  /**
   * The routing of `handleIncomingMessages`: own and empty messages are
   * dropped; two words with a digit first are a direct request whatever the
   * words are; otherwise the lower-cased first word picks the command, and
   * anything else is a short-form retrieval of the whole text.
   */
  function Classify(m: Message): (r: Route)
    ensures r.Ignore? <==> m.fromMe || MessageText(m) == ""
    ensures r.Direct? <==> !m.fromMe && MessageText(m) != "" && IsDirect(Words(MessageText(m)))
    ensures r.Direct? ==> [r.roll, r.password] == Words(MessageText(m))
    ensures !r.Ignore? && !r.Direct? ==>
              var command := Text.Lower(Words(MessageText(m))[0]);
              && (r.SetRoute? <==> command == "set")
              && (r.DeleteRoute? <==> command == "delete")
              && (r.ShowRoute? <==> command == "shortforms")
              && (r.SkipRoute? <==> command == "skip")
              && (r.LogoutRoute? <==> command == "logout")
    ensures r.SetRoute? || r.DeleteRoute? || r.SkipRoute? ==> r.words == Words(MessageText(m))
    ensures r.Retrieve? ==> r.text == MessageText(m)
  {
    var text := MessageText(m);
    if m.fromMe || text == "" then Ignore
    else
      var words := Words(text);
      var command := Text.Lower(words[0]);
      if IsDirect(words) then Direct(words[0], words[1])
      else if command == "set" then SetRoute(words)
      else if command == "delete" then DeleteRoute(words)
      else if command == "shortforms" then ShowRoute
      else if command == "skip" then SkipRoute(words)
      else if command == "logout" then LogoutRoute
      else Retrieve(text)
  }

  /**
   * `handleDirectCommand`: the reply to a roll number and password. The
   * handler reads `.data` of the body `fetchAttendanceData` already unwrapped,
   * so a report is sent only when the body carries a `data` member of its own;
   * a failed request, a missing `data` and a report the formatter cannot
   * print all end in the invalid-credentials reply.
   */
  function DirectReply(answer: Option<Payload>): (n: Notice)
    ensures n.Summary? || n == InvalidCredentials
    ensures n.Summary? ==>
              answer.Some? && answer.value.data.Some? && AttendanceMessage(answer.value.data.value) == Some(n.text)
    ensures answer.Some? && answer.value.data.Some? && AttendanceMessage(answer.value.data.value).Some? ==>
              n == Summary(AttendanceMessage(answer.value.data.value).value)
  {
    match answer
    case None => InvalidCredentials
    case Some(body) =>
      match body.data
      case None => InvalidCredentials
      case Some(report) =>
        match AttendanceMessage(report)
        case None => InvalidCredentials
        case Some(message) => Summary(message)
  }

  /** `handleSetCommand`; the validation request's answer is never consulted. */
  function SetEffect(users: Users, phone: string, words: seq<string>, dbUp: bool): (e: Effect<Notice>)
    ensures OnlyTouches(users, e.users, phone)
    ensures |e.replies| == 1 && e.replies[0].to == phone
  {
    if |words| < 4 then Effect(users, [Reply(phone, SetFormatError)])
    else if !dbUp then Effect(users, [Reply(phone, SetFailed)])
    else
      match SetAlias(Stored(users, phone), words[1], words[2], words[3])
      case Conflict(existing) => Effect(users, [Reply(phone, RollTaken(existing))])
      case Updated(list) => Effect(users[phone := list], [Reply(phone, Rewritten(words[1]))])
      case Created(list) => Effect(users[phone := list], [Reply(phone, Added(words[1]))])
  }

  /** `handleShortFormRetrieval`: the reply, or nothing when the table does not answer. */
  function RetrievalReplies(users: Users, phone: string, text: string, api: AttendanceApi, dbUp: bool): seq<Reply<Notice>> {
    if !dbUp then []
    else
      var list := Stored(users, phone);
      match FindByShortId(list, text)
      case Some(i) => [Reply(phone, DirectReply(api(list[i].rollNumber, list[i].password)))]
      case None => [Reply(phone, NotFound)]
  }

  /** `handleDeleteCommand`. */
  function DeleteEffect(users: Users, phone: string, words: seq<string>, dbUp: bool): (e: Effect<Notice>)
    ensures OnlyTouches(users, e.users, phone)
    ensures |e.replies| <= 1 && forall i | 0 <= i < |e.replies| :: e.replies[i].to == phone
  {
    if |words| < 2 then Effect(users, [Reply(phone, DeleteFormatError)])
    else if !dbUp then Effect(users, [])
    else
      var list := Stored(users, phone);
      if list == [] then Effect(users, [Reply(phone, NothingToDelete)])
      else
        var kept := RemoveAlias(list, words[1]);
        if |kept| < |list| then Effect(users[phone := kept], [Reply(phone, Removed(words[1]))])
        else Effect(users, [Reply(phone, NoSuchShortForm(words[1]))])
  }

  /** The listing `handleShowShortForms` sends for a non-empty list. */
  function Listing(list: seq<Alias>): string {
    ListingHeading + Text.Lines(list, ListingLine) + ListingFooter
  }

  /** `handleShowShortForms`. */
  function ShowReplies(users: Users, phone: string, dbUp: bool): seq<Reply<Notice>> {
    if !dbUp then []
    else if Stored(users, phone) == [] then [Reply(phone, NoShortForms)]
    else [Reply(phone, ShortForms(Listing(Stored(users, phone))))]
  }

  /** The hours of `skip <hours>`: `words[1]`, `undefined` when absent. */
  function SkipHours(words: seq<string>): Option<string> {
    if |words| >= 2 then Some(words[1]) else None
  }

  /**
   * `handleSkipCommand`: asks the skip endpoint about the first stored alias.
   * Every failure (no table, no alias, a failed request) is swallowed.
   */
  function SkipReplies(users: Users, phone: string, words: seq<string>, skipApi: SkipApi, dbUp: bool): seq<Reply<Notice>> {
    var list := Stored(users, phone);
    if !dbUp || list == [] then []
    else
      match skipApi(list[0].rollNumber, list[0].password, SkipHours(words))
      case None => []
      case Some(report) => [Reply(phone, Skip(SkipMessage(SkipHours(words), report)))]
  }

  /**
   * One message through `handleIncomingMessages`. `logout` ends in a caught
   * TypeError (the auth store offers no `clearCreds`) and does nothing.
   */
  function Respond(users: Users, m: Message, api: AttendanceApi, skipApi: SkipApi, dbUp: bool): Effect<Notice> {
    Dispatch(users, m.sender, Classify(m), api, skipApi, dbUp)
  }

  /** What the handler for `route` does with a message from `phone`. */
  function Dispatch(users: Users, phone: string, route: Route, api: AttendanceApi, skipApi: SkipApi, dbUp: bool): Effect<Notice> {
    match route
    case Ignore => Effect(users, [])
    case Direct(roll, password) => Effect(users, [Reply(phone, DirectReply(api(roll, password)))])
    case SetRoute(words) => SetEffect(users, phone, words, dbUp)
    case DeleteRoute(words) => DeleteEffect(users, phone, words, dbUp)
    case ShowRoute => Effect(users, ShowReplies(users, phone, dbUp))
    case SkipRoute(words) => Effect(users, SkipReplies(users, phone, words, skipApi, dbUp))
    case LogoutRoute => Effect(users, [])
    case Retrieve(text) =>
      if dbUp then Effect(users, RetrievalReplies(users, phone, text, api, dbUp) + [Reply(phone, Help)])
      else Effect(users, [])
  }

  /**
   * A message touches at most the sender's own entry of the table, answers
   * only the sender, and sends two replies only from the default branch.
   */
  lemma RespondFrame(users: Users, m: Message, api: AttendanceApi, skipApi: SkipApi, dbUp: bool)
    ensures var e := Respond(users, m, api, skipApi, dbUp);
            && OnlyTouches(users, e.users, m.sender)
            && (forall i | 0 <= i < |e.replies| :: e.replies[i].to == m.sender)
            && |e.replies| <= 2
            && (|e.replies| == 2 ==> Classify(m).Retrieve?)
  {
    DispatchFrame(users, m.sender, Classify(m), api, skipApi, dbUp);
  }

  lemma DispatchFrame(users: Users, phone: string, route: Route, api: AttendanceApi, skipApi: SkipApi, dbUp: bool)
    ensures var e := Dispatch(users, phone, route, api, skipApi, dbUp);
            && OnlyTouches(users, e.users, phone)
            && (forall i | 0 <= i < |e.replies| :: e.replies[i].to == phone)
            && |e.replies| <= 2
            && (|e.replies| == 2 ==> route.Retrieve?)
  {
    match route
    case Retrieve(text) =>
      var lookup := RetrievalReplies(users, phone, text, api, dbUp);
      assert |lookup| <= 1 && forall i | 0 <= i < |lookup| :: lookup[i].to == phone;
    case _ =>
  }

  /** An own message, or one without text, changes nothing and gets no reply. */
  lemma IgnoredMessages(users: Users, m: Message, api: AttendanceApi, skipApi: SkipApi, dbUp: bool)
    requires m.fromMe || MessageText(m) == ""
    ensures Respond(users, m, api, skipApi, dbUp) == Effect(users, [])
  {
  }

  /**
   * Two words with a digit first are answered as a direct request, even when
   * the first word would otherwise be a command or a stored short form.
   */
  lemma DirectComesFirst(users: Users, m: Message, api: AttendanceApi, skipApi: SkipApi, dbUp: bool)
    requires !m.fromMe && IsDirect(Words(MessageText(m)))
    ensures var words := Words(MessageText(m));
            Respond(users, m, api, skipApi, dbUp) == Effect(users, [Reply(m.sender, DirectReply(api(words[0], words[1])))])
  {
  }

  /**
   * Text that is no command is looked up as a short form, and the help text
   * follows whatever the lookup answered; when the table does not answer,
   * the lookup throws and nothing at all is sent.
   */
  lemma DefaultAlwaysSendsHelp(users: Users, m: Message, api: AttendanceApi, skipApi: SkipApi, dbUp: bool)
    requires Classify(m).Retrieve?
    ensures var e := Respond(users, m, api, skipApi, dbUp);
            && e.users == users
            && (dbUp ==> |e.replies| == 2 && e.replies[1] == Reply(m.sender, Help))
            && (dbUp ==> (e.replies[0].notice == NotFound <==> FindByShortId(Stored(users, m.sender), MessageText(m)).None?))
            && (!dbUp ==> e.replies == [])
  {
    var list := Stored(users, m.sender);
    var lookup := RetrievalReplies(users, m.sender, MessageText(m), api, dbUp);
    if dbUp {
      assert Respond(users, m, api, skipApi, dbUp) == Effect(users, lookup + [Reply(m.sender, Help)]);
    }
  }

  /**
   * `set` never waits on the validation request: the same message has the
   * same effect whatever the attendance endpoint answers.
   */
  lemma SetIgnoresValidation(users: Users, m: Message, api1: AttendanceApi, api2: AttendanceApi, skipApi: SkipApi, dbUp: bool)
    requires Classify(m).SetRoute?
    ensures Respond(users, m, api1, skipApi, dbUp) == Respond(users, m, api2, skipApi, dbUp)
  {
  }

  /** `set` with fewer than four words answers with the format error and writes nothing. */
  lemma SetNeedsFourWords(users: Users, phone: string, words: seq<string>, dbUp: bool)
    requires |words| < 4
    ensures SetEffect(users, phone, words, dbUp).users == users
    ensures SetEffect(users, phone, words, dbUp).replies == [Reply(phone, SetFormatError)]
  {
  }

  /** A well-formed `set` when the table does not answer gets the retry reply and writes nothing. */
  lemma SetTableDown(users: Users, phone: string, words: seq<string>)
    requires |words| >= 4
    ensures SetEffect(users, phone, words, false) == Effect(users, [Reply(phone, SetFailed)])
  {
  }

  /**
   * A roll number that is already stored is refused with the short form it
   * is linked to, and the table is left as it was.
   */
  lemma SetConflictWritesNothing(users: Users, phone: string, words: seq<string>)
    requires |words| >= 4
    requires exists j | 0 <= j < |Stored(users, phone)| :: Stored(users, phone)[j].rollNumber == words[2]
    ensures var e := SetEffect(users, phone, words, true);
            && e.users == users
            && exists j | 0 <= j < |Stored(users, phone)| ::
                 Stored(users, phone)[j].rollNumber == words[2]
                 && e.replies == [Reply(phone, RollTaken(Stored(users, phone)[j].shortId))]
  {
    ConflictNamesHolder(Stored(users, phone), words[1], words[2], words[3]);
  }

  /**
   * Otherwise the whole list is written back, exactly as SetAlias leaves it
   * (so only the first entry with the short form changes on an update): same length after an update,
   * one longer after an append, the reply says which of the two happened,
   * and the short form now resolves to the new roll number and password.
   */
  lemma SetPersistsList(users: Users, phone: string, words: seq<string>)
    requires |words| >= 4
    requires forall j | 0 <= j < |Stored(users, phone)| :: Stored(users, phone)[j].rollNumber != words[2]
    ensures var e := SetEffect(users, phone, words, true);
            var list := e.users[phone];
            && phone in e.users
            && list == SetAlias(Stored(users, phone), words[1], words[2], words[3]).list
            && (forall other | other != phone :: (other in e.users <==> other in users))
            && (|list| == |Stored(users, phone)| || list == Stored(users, phone) + [Alias(words[1], words[2], words[3])])
            && e.replies == [Reply(phone, if FindByShortId(Stored(users, phone), words[1]).Some? then Rewritten(words[1]) else Added(words[1]))]
            && FindByShortId(list, words[1]).Some?
            && list[FindByShortId(list, words[1]).value] == Alias(words[1], words[2], words[3])
  {
    SetThenResolve(Stored(users, phone), words[1], words[2], words[3]);
  }

  /**
   * `delete` writes only when the filter removed an entry: it then stores
   * the filtered list, the short form no longer resolves, and the reply
   * confirms it. Otherwise it says why nothing was deleted, or stays silent
   * when the table does not answer.
   */
  lemma DeleteWritesOnlyOnRemoval(users: Users, phone: string, words: seq<string>, dbUp: bool)
    ensures var e := DeleteEffect(users, phone, words, dbUp);
            var list := Stored(users, phone);
            && (e.users != users ==> |words| >= 2 && dbUp && exists j | 0 <= j < |list| :: list[j].shortId == words[1])
            && (|words| < 2 ==> e == Effect(users, [Reply(phone, DeleteFormatError)]))
            && (|words| >= 2 && !dbUp ==> e == Effect(users, []))
            && (|words| >= 2 && dbUp && list == [] ==> e == Effect(users, [Reply(phone, NothingToDelete)]))
            && (|words| >= 2 && dbUp && list != [] && (forall j | 0 <= j < |list| :: list[j].shortId != words[1]) ==>
                  e == Effect(users, [Reply(phone, NoSuchShortForm(words[1]))]))
            && (|words| >= 2 && dbUp && (exists j | 0 <= j < |list| :: list[j].shortId == words[1]) ==>
                  && e.users == users[phone := RemoveAlias(list, words[1])]
                  && FindByShortId(e.users[phone], words[1]).None?
                  && e.replies == [Reply(phone, Removed(words[1]))])
  {
  }

  /** `skip` answers only about the first stored alias, and only when the skip endpoint answers. */
  lemma SkipUsesFirstAlias(users: Users, phone: string, words: seq<string>, skipApi: SkipApi, dbUp: bool)
    ensures var replies := SkipReplies(users, phone, words, skipApi, dbUp);
            var list := Stored(users, phone);
            replies != [] <==>
              dbUp && list != [] && skipApi(list[0].rollNumber, list[0].password, SkipHours(words)).Some?
  {
  }

  /** No message ever stores a second entry for a roll number or a short form. */
  lemma RespondKeepsDirectoryUnique(users: Users, m: Message, api: AttendanceApi, skipApi: SkipApi, dbUp: bool)
    requires DirectoryUnique(users)
    ensures DirectoryUnique(Respond(users, m, api, skipApi, dbUp).users)
  {
    var phone := m.sender;
    match Classify(m)
    case SetRoute(words) =>
      assert Respond(users, m, api, skipApi, dbUp) == SetEffect(users, phone, words, dbUp);
      SetEffectKeepsUnique(users, phone, words, dbUp);
    case DeleteRoute(words) =>
      assert Respond(users, m, api, skipApi, dbUp) == DeleteEffect(users, phone, words, dbUp);
      DeleteEffectKeepsUnique(users, phone, words, dbUp);
    case _ =>
  }

  lemma SetEffectKeepsUnique(users: Users, phone: string, words: seq<string>, dbUp: bool)
    requires DirectoryUnique(users)
    ensures DirectoryUnique(SetEffect(users, phone, words, dbUp).users)
  {
    var list := Stored(users, phone);
    if |words| >= 4 && dbUp && !SetAlias(list, words[1], words[2], words[3]).Conflict? {
      SetKeepsUnique(list, words[1], words[2], words[3]);
    }
  }

  lemma DeleteEffectKeepsUnique(users: Users, phone: string, words: seq<string>, dbUp: bool)
    requires DirectoryUnique(users)
    ensures DirectoryUnique(DeleteEffect(users, phone, words, dbUp).users)
  {
    if |words| >= 2 {
      RemoveKeepsUnique(Stored(users, phone), words[1]);
    }
  }

  /** The bot's state: the `user_info` table and the replies sent so far. */
  class Bot {
    var users: Users
    var sent: seq<Reply<Notice>>

    constructor(users: Users)
      ensures this.users == users && sent == []
    {
      this.users := users;
      sent := [];
    }

    method Send(to: string, n: Notice)
      modifies this
      ensures users == old(users) && sent == old(sent) + [Reply(to, n)]
    {
      sent := sent + [Reply(to, n)];
    }

    /** `handleIncomingMessages` for one message. */
    method HandleIncoming(m: Message, api: AttendanceApi, skipApi: SkipApi, dbUp: bool)
      modifies this
      ensures var e := Respond(old(users), m, api, skipApi, dbUp);
              users == e.users && sent == old(sent) + e.replies
    {
      if m.fromMe {
        return;
      }
      var text := MessageText(m);
      if text == "" {
        return;
      }
      var words := Words(text);
      var command := Text.Lower(words[0]);
      if IsDirect(words) {
        HandleDirect(words[0], words[1], m.sender, api);
        return;
      }
      if command == "set" {
        HandleSet(words, m.sender, api, dbUp);
      } else if command == "delete" {
        HandleDelete(words, m.sender, dbUp);
      } else if command == "shortforms" {
        HandleShowShortForms(m.sender, dbUp);
      } else if command == "skip" {
        HandleSkip(words, m.sender, skipApi, dbUp);
      } else if command == "logout" {
      } else if dbUp {
        HandleRetrieval(text, m.sender, api, dbUp);
        Send(m.sender, Help);
      }
    }

    /** `handleDirectCommand`. */
    method HandleDirect(roll: string, password: string, phone: string, api: AttendanceApi)
      modifies this
      ensures users == old(users) && sent == old(sent) + [Reply(phone, DirectReply(api(roll, password)))]
    {
      var response := api(roll, password);
      if response.None? || response.value.data.None? {
        Send(phone, InvalidCredentials);
        return;
      }
      var message := BuildAttendanceMessage(response.value.data.value);
      if message.None? {
        Send(phone, InvalidCredentials);
      } else {
        Send(phone, Summary(message.value));
      }
    }

    /**
     * `handleSetCommand`: finds the entry by roll number, then by short form,
     * rewrites that entry or appends a new one, replies, and writes the list.
     */
    method HandleSet(words: seq<string>, phone: string, api: AttendanceApi, dbUp: bool)
      modifies this
      ensures var e := SetEffect(old(users), phone, words, dbUp);
              users == e.users && sent == old(sent) + e.replies
    {
      if |words| < 4 {
        Send(phone, SetFormatError);
        return;
      }
      var shortId, roll, password := words[1], words[2], words[3];
      var validation := api(roll, password);
      if !dbUp {
        Send(phone, SetFailed);
        return;
      }
      var credentials := Stored(users, phone);
      var byRoll := FindByRoll(credentials, roll);
      if byRoll.Some? {
        Send(phone, RollTaken(credentials[byRoll.value].shortId));
        return;
      }
      var byShortId := FindByShortId(credentials, shortId);
      if byShortId.Some? {
        var i := byShortId.value;
        credentials := credentials[i := credentials[i].(rollNumber := roll, password := password)];
        Send(phone, Rewritten(shortId));
      } else {
        credentials := credentials + [Alias(shortId, roll, password)];
        Send(phone, Added(shortId));
      }
      users := users[phone := credentials];
    }

    /** `handleShortFormRetrieval`. */
    method HandleRetrieval(text: string, phone: string, api: AttendanceApi, dbUp: bool)
      modifies this
      ensures users == old(users) && sent == old(sent) + RetrievalReplies(old(users), phone, text, api, dbUp)
    {
      if !dbUp {
        return;
      }
      var credentials := Stored(users, phone);
      var match_ := FindByShortId(credentials, text);
      if match_.Some? {
        HandleDirect(credentials[match_.value].rollNumber, credentials[match_.value].password, phone, api);
        return;
      }
      Send(phone, NotFound);
    }

    /** `handleDeleteCommand`: writes the filtered list only when it is shorter. */
    method HandleDelete(words: seq<string>, phone: string, dbUp: bool)
      modifies this
      ensures var e := DeleteEffect(old(users), phone, words, dbUp);
              users == e.users && sent == old(sent) + e.replies
    {
      if |words| < 2 {
        Send(phone, DeleteFormatError);
        return;
      }
      var shortId := words[1];
      if !dbUp {
        return;
      }
      var credentials := Stored(users, phone);
      if credentials != [] {
        var updated := RemoveAlias(credentials, shortId);
        if |updated| < |credentials| {
          users := users[phone := updated];
          Send(phone, Removed(shortId));
        } else {
          Send(phone, NoSuchShortForm(shortId));
        }
      } else {
        Send(phone, NothingToDelete);
      }
    }

    /** `handleShowShortForms`: one line per stored alias, appended in storage order. */
    method HandleShowShortForms(phone: string, dbUp: bool)
      modifies this
      ensures users == old(users) && sent == old(sent) + ShowReplies(old(users), phone, dbUp)
    {
      if !dbUp {
        return;
      }
      var credentials := Stored(users, phone);
      if credentials != [] {
        var message := Text.AppendLines(ListingHeading, credentials, ListingLine);
        message := message + ListingFooter;
        Send(phone, ShortForms(message));
      } else {
        Send(phone, NoShortForms);
      }
    }

    /** `handleSkipCommand`: always the first stored alias. */
    method HandleSkip(words: seq<string>, phone: string, skipApi: SkipApi, dbUp: bool)
      modifies this
      ensures users == old(users) && sent == old(sent) + SkipReplies(old(users), phone, words, skipApi, dbUp)
    {
      var hours := if |words| >= 2 then Some(words[1]) else None;
      if !dbUp {
        return;
      }
      var credentials := Stored(users, phone);
      if credentials == [] {
        return;
      }
      var response := skipApi(credentials[0].rollNumber, credentials[0].password, hours);
      if response.Some? {
        Send(phone, Skip(SkipMessage(hours, response.value)));
      }
    }
  }
}
