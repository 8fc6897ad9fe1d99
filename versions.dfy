/**
 * The two versions of the bot side by side: where their precedence differs
 * they may answer differently, but a well-formed `set` leaves the same table
 * behind in both.
 */
module Versions {
  import opened Wrappers
  import Text
  import opened Chat
  import opened Attendance
  import opened Aliases
  import Router
  import InlineHandler

  /** A text whose first word lower-cases to `set` starts, lower-cased, with `"set "` once a second word follows. */
  lemma SetWordIsSetPrefix(text: string)
    requires |Words(text)| >= 2 && Text.Lower(Words(text)[0]) == "set"
    ensures Text.StartsWith(Text.Lower(text), "set ")
  {
    var words := Words(text);
    var rest := Text.Join(words[1..], ' ');
    Text.SplitHead(text, ' ');
    Text.LowerAppend(words[0] + [' '], rest);
    Text.LowerAppend(words[0], [' ']);
    assert Text.Lower([' ']) == [' '];
    Text.PrefixAppend("set ", Text.Lower(rest));
  }

  /**
   * `set <shortId> <rollNumber> <password>` with three non-empty tokens,
   * credentials the attendance endpoint accepts, and the table in either
   * state, writes the same table in index.js as in test.js.
   */
  lemma SetAgreesAcrossVersions(users: Users, m: Message, api: AttendanceApi, skipApi: SkipApi, dbUp: bool)
    requires !m.fromMe && MessageText(m) != ""
    requires var words := Words(MessageText(m));
             |words| >= 4 && Text.Lower(words[0]) == "set"
             && words[1] != "" && words[2] != "" && words[3] != ""
             && api(words[2], words[3]).Some?
    ensures InlineHandler.Upsert(users, m, api, dbUp).users == Router.Respond(users, m, api, skipApi, dbUp).users
  {
    var text := MessageText(m);
    var words := Words(text);
    SetWordIsSetPrefix(text);
    assert Router.Classify(m) == Router.SetRoute(words);
    assert InlineHandler.SetTokens(words);
    assert InlineHandler.Handle(users, m.sender, text, api, dbUp)
        == InlineHandler.SetEffect(users, m.sender, words, api, dbUp);
  }
}
