# Attendance tracker bot, modelled in Dafny

The Attendance tracker is a WhatsApp bot for college students. A student sends
a roll number and a password, and the bot replies with an attendance report
fetched from an attendance service. The student can also save the pair under a
short form and later send just the short form. The bot keeps its WhatsApp
session in a DynamoDB table through a small auth-state store. It also keeps
every phone number's short forms in a second table, `user_info`.

This project models three parts of that system and proves properties about
them:

- **The auth-state store** (dynamoAuthState.js). This covers:
  - the `BufferJSON` codec: `replacer`, `reviver`, and the `JSON.stringify`/`JSON.parse` traversals that apply them;
  - base64 as Node's `Buffer` writes and reads it;
  - `writeData`, `readData` and `removeData` over a table modelled as a map from key to item;
  - `keys.get` and `keys.set`;
  - the credentials bootstrap, `initAuthCreds`;
  - `saveCreds`.

  Modules: `Base64`, `Json`, `AuthState`. The class `AuthState.AuthStore` holds the table and the credentials.
- **The refactored bot** (test.js). This covers:
  - the router `handleIncomingMessages`;
  - the command handlers for direct requests, `set`, short-form retrieval, `delete`, `shortforms` and `skip`;
  - the report formatter `buildAttendanceMessage`.

  Modules: `Router` and `Attendance`. The function `Router.Respond` states what one message does. The class `Router.Bot` carries it out step by step, as the handlers do.
- **The original bot** (index.js). This is one inline `messages.upsert` handler with its own precedence and its own report layout. Module: `InlineHandler`. The function `InlineHandler.Upsert` states what one message does, and the class `InlineHandler.InlineBot` carries it out.

**Shared modules**
- `Aliases`: the short-form rules both bots share.
- `Chat`: the incoming message and the replies.
- `Text`: the JavaScript string operations used.
- `Versions`: compares the two bots.

**How the environment is represented**
- DynamoDB, the attendance endpoint and the skip endpoint are parameters.
- The `user_info` table is `users: map<phone, seq<Alias>>`.
- Whether the table answers is `dbUp`.
- The attendance endpoint is a function `(roll, password) -> Option<Payload>`; `None` means a failed request.
- Whether one auth-table request reaches DynamoDB is `online`.
- Replies are recorded as values of each bot's `Notice` datatype. That bot's `Wording` function gives the exact text sent.

**Source behaviours the model keeps as written:**
- **`set` validation (test.js).** `fetchAttendanceData` catches every error and returns `undefined`, so validation in `set` can never stop the write. `Router.SetIgnoresValidation` states this. A `set` with more than four words is also accepted; the extra words are ignored.
- **Direct requests (test.js).** `handleDirectCommand` reads `.data` of a body that `fetchAttendanceData` has already unwrapped. A report is sent only when the body carries a `data` member of its own. Everything else gets the invalid-credentials reply (`Router.DirectReply`).
- **The default branch (test.js).** It sends the help text after the retrieval reply, whether or not the short form matched (`Router.DefaultAlwaysSendsHelp`).
- **`logout` (test.js).** It calls a `clearCreds` that the auth store never returns. The resulting TypeError is caught, and nothing happens.
- **Table failures.** They are not always silent:
  - test.js `set` and index.js `set` reply with "Please try again" when the table does not answer;
  - in test.js's default branch, a failing table throws before the help text is sent, so no reply is sent at all.
- **The codec round trip.** It holds only for records in which no plain object has `type: "Buffer"` or `buffer: true` (`Json.TagFree`). Such an object is turned into a buffer on the way back. Reading a record also adds its `id` attribute to it.

## Model

| member | source | states |
|---|---|---|
| Base64.CharOf | dynamoAuthState.js:36 | every six-bit value is written as a character other than `=` that the decoder reads back as the same value |
| Base64.ValueOf | dynamoAuthState.js:46 | the decoder never takes `=` for data |
| Base64.Encode | dynamoAuthState.js:36 | the output is padded to four characters per started group of three bytes, and is empty exactly for the empty buffer |
| Base64.Decode | dynamoAuthState.js:46 | Node's base64 reading never fails: characters outside the alphabet are skipped, reading stops at the first `=`, four values give three bytes and a trailing two or three give one or two; Base64.DecodeEncode states that it undoes Base64.Encode |
| Base64.SextetsOfChars | dynamoAuthState.js:46 | reading the encoder's characters up to its padding gives back the six-bit values written |
| Base64.DecodeGroup | dynamoAuthState.js:46 | the four values written for a full group of three bytes decode to those bytes, and decoding continues after them |
| Base64.DecodeTail | dynamoAuthState.js:46 | a trailing single byte or pair decodes from the two or three values written for it |
| Base64.DecodeToSextets | dynamoAuthState.js:46 | decoding the six-bit values of any byte sequence gives the bytes back |
| Base64.DecodeEncode | dynamoAuthState.js:36-46 | `Buffer.from(b.toString("base64"), "base64")` equals `b` for every byte sequence, the empty one included |
| Json.Member | dynamoAuthState.js:33 | a member read gives a value exactly when the value is an object holding that key |
| Json.ArrayBytes | dynamoAuthState.js:47 | `Buffer.from(array)` has one byte per element, each the element stored into a `Uint8Array` slot |
| Json.ArrayLikeBytes | dynamoAuthState.js:36 | an array-like object gives `length` bytes, byte `i` taken from its member `"i"` or 0 when that is missing, and no bytes for a length that is not positive |
| Json.BufferFrom | dynamoAuthState.js:36-47 | `Buffer.from` throws exactly for `null`, booleans, numbers, and objects that have no `length` and are not `{type: "Buffer", data: [...]}`; a buffer is copied, an array converted element by element, a `length` member is looked at before `type`, and a `length` that is not a number gives the empty buffer |
| Json.Replacer | dynamoAuthState.js:32-41 | a value that is not buffer-like is returned unchanged; a buffer-like value becomes `{type: "Buffer", data: base64}` of the bytes `Buffer.from(value?.data \|\| value)` yields, and the replacer throws exactly when `Buffer.from` does |
| Json.ReplacerOnBuffers | dynamoAuthState.js:33-37 | a `Uint8Array` and a `Buffer` seen through its `toJSON` both become the same tagged base64 wrapper |
| Json.Stringify | dynamoAuthState.js:56-58 | whatever the encoding produces holds no buffer at any depth |
| Json.Plain | dynamoAuthState.js:74 | stringifying an item without a replacer leaves no buffer in it |
| Json.PlainOfJsonSafe | dynamoAuthState.js:74 | a value that holds no buffer passes through `JSON.parse(JSON.stringify(v))` unchanged |
| Json.Reviver | dynamoAuthState.js:42-51 | an untagged value is returned unchanged; a tagged object always revives to bytes: string data is base64-decoded, missing or falsy data gives the empty buffer, and array data is copied element by element |
| Json.ReviverOfTagged | dynamoAuthState.js:42-51 | the reviver undoes the replacer's wrapper for every byte sequence, including the empty buffer whose `data` is the falsy `""` |
| Json.Parse | dynamoAuthState.js:74 | `JSON.parse(text, reviver)`: every member is revived before the array or object that holds it, and a reviver failure fails the whole parse; Json.ParseMembers states the order and Json.RoundTrip that it undoes Json.Stringify |
| Json.RoundTripBytes | dynamoAuthState.js:31-51 | a buffer is encoded as the tagged wrapper, and the wrapper parses back to the buffer |
| Json.StringifyObj | dynamoAuthState.js:56-58 | encoding a plain object keeps its member names and encodes each member |
| Json.ParseMembers | dynamoAuthState.js:42-51 | the reviver sees an object only after each of its members has been revived |
| Json.RoundTripArr | dynamoAuthState.js:31-51 | an array round-trips through the codec when each of its elements does |
| Json.RoundTripObj | dynamoAuthState.js:31-51 | an object that is not a wrapper round-trips when each of its members does |
| Json.RoundTrip | dynamoAuthState.js:31-51 | `JSON.parse(JSON.stringify(v, replacer), reviver)` gives `v` back, with buffers at any depth, for every value in which no plain object looks like a wrapper |
| AuthState.InitAuthCredsShape | dynamoAuthState.js:14-29 | fresh credentials have exactly the nine members Baileys expects, pre-key counters at 1, an ADV secret that decodes to the random bytes drawn, and no `id` |
| AuthState.InitAuthCreds | dynamoAuthState.js:14-29 | the fresh credentials `initAuthCreds` builds from the key material; AuthState.InitAuthCredsShape and AuthState.InitAuthCredsTagFree state their members and that the codec keeps them |
| AuthState.TagFreeUpdate | dynamoAuthState.js:14-29 | adding a member named neither `type` nor `buffer` keeps a record safe for the codec |
| AuthState.KeyPairTagFree | dynamoAuthState.js:15-18 | a key pair record is safe for the codec |
| AuthState.SignedPreKeyTagFree | dynamoAuthState.js:19 | the signed pre-key record is safe for the codec |
| AuthState.CredsTailTagFree | dynamoAuthState.js:21-27 | the members after `registrationId` keep the credentials safe for the codec |
| AuthState.InitAuthCredsTagFree | dynamoAuthState.js:14-29 | fresh credentials contain no object the codec would take for a buffer wrapper |
| AuthState.IndexKeys | dynamoAuthState.js:61-64 | spreading an array or string gives index keys, none of which is `id` |
| AuthState.IndexKeysAt | dynamoAuthState.js:61-64 | element `i` is copied under the key `"i"` |
| AuthState.Spread | dynamoAuthState.js:61-64 | an object spreads to its own members; nothing else spreads an `id` over the key |
| AuthState.ItemForId | dynamoAuthState.js:55-66 | the item exists exactly when encoding succeeds; its `id` is the key written for, unless the record object carries its own `id`, which then wins |
| AuthState.ItemFor | dynamoAuthState.js:55-66 | the item `writeData` puts: `{id, ...JSON.parse(JSON.stringify(data, replacer))}`, or none when encoding throws; AuthState.ItemForId states where the `id` comes from |
| AuthState.StringifyKeepsKeys | dynamoAuthState.js:56-63 | encoding a record object keeps its member names; a non-object record contributes no `id` to the item |
| AuthState.PutKey | dynamoAuthState.js:59-65 | an item is stored under its `id`, and only when that is a non-empty string |
| AuthState.Target | dynamoAuthState.js:59-65 | a request lands only where its encoded item's `id` says |
| AuthState.Apply | dynamoAuthState.js:59-65 | a put throws exactly when encoding threw; it writes exactly when the request goes through and the item has a key; a put that does not write leaves the table as it was |
| AuthState.WriteOutcomes | dynamoAuthState.js:55-66 | `writeData` throws exactly when encoding does, and otherwise changes at most the one item its key names |
| AuthState.Write | dynamoAuthState.js:55-66 | one `writeData` call on the table; AuthState.WriteOutcomes states when it throws and what it may change |
| AuthState.Read | dynamoAuthState.js:68-78 | `readData` yields a value only for a key that is present and a request that goes through; every failure is `null` and nothing throws |
| AuthState.Remove | dynamoAuthState.js:80-89 | `removeData` deletes the key when the request goes through, keeps every other item, and never fails |
| AuthState.CategoryRequests | dynamoAuthState.js:108-113 | `keys.set` issues one write per entry of a category |
| AuthState.SetRequests | dynamoAuthState.js:106-114 | the writes `keys.set` issues, category by category and id by id; AuthState.SetRequestsAppend and AuthState.SetRequestsSplit state their order |
| AuthState.SetRequestsAppend | dynamoAuthState.js:106-116 | the writes of two batches issued one after the other are those of their concatenation |
| AuthState.Step | dynamoAuthState.js:112-115 | once a write has thrown, later entries change nothing |
| AuthState.Run | dynamoAuthState.js:106-116 | the table after `keys.set`'s writes in issue order, a synchronous throw stopping the loop; AuthState.RunAppend, AuthState.RunFrame and AuthState.RunLastWriteWins state its properties |
| AuthState.RunAppend | dynamoAuthState.js:106-116 | running two lists of writes in turn is running their concatenation |
| AuthState.RunAfterThrow | dynamoAuthState.js:106-116 | after an encoding failure the rest of the batch is not written |
| AuthState.RunFrame | dynamoAuthState.js:106-116 | `keys.set` touches no item except those its writes target |
| AuthState.RunNoThrow | dynamoAuthState.js:106-116 | a batch whose values all encode never throws |
| AuthState.RunLastWriteWins | dynamoAuthState.js:106-116 | in a batch without encoding failures, the last successful write to a key decides its item |
| AuthState.ThrowEndsBatch | dynamoAuthState.js:106-116 | the state left by the write that throws is the state at the end of the whole batch |
| AuthState.SetRequestsSplit | dynamoAuthState.js:108-114 | a batch's writes are those of the categories before one category, then that category's, then those after it |
| AuthState.MembersRoundTrip | dynamoAuthState.js:56-74 | every member of a record that is safe for the codec round-trips |
| AuthState.RecordItem | dynamoAuthState.js:55-66 | the item of a record object without `id` is the key next to each encoded member |
| AuthState.ReviveObjectItem | dynamoAuthState.js:68-78 | reading back that item gives the record with its `id` attribute added |
| AuthState.ReadAfterWrite | dynamoAuthState.js:55-78 | writing a record object and reading its key gives back the record plus `id`, with buffers at any depth restored |
| AuthState.ItemForBytes | dynamoAuthState.js:55-66 | a bare buffer is stored as its key next to the wrapper's `type` and `data` |
| AuthState.BufferItemMembersParse | dynamoAuthState.js:74 | the members of a stored wrapper item are strings, which parse to themselves |
| AuthState.ReviverOfBufferItem | dynamoAuthState.js:42-51 | the reviver turns a stored wrapper item, with its `id`, into the buffer, the empty buffer included |
| AuthState.ReviveBufferItem | dynamoAuthState.js:68-78 | reading a stored wrapper item gives exactly the buffer |
| AuthState.ReadAfterWriteBytes | dynamoAuthState.js:55-78 | a buffer written as a whole record reads back as exactly that buffer |
| AuthState.ReadAfterWriteNull | dynamoAuthState.js:55-78 | writing `null` stores an item holding only `id`; reading it back gives the truthy `{id}`, not nothing |
| AuthState.OwnIdWins | dynamoAuthState.js:61-64 | a record with its own non-empty string `id` is stored under that id, and the key it was written for is left as it was |
| AuthState.ReadAfterRemove | dynamoAuthState.js:68-89 | after `removeData(id)`, `readData(id)` is `null` |
| AuthState.FreshCredsPersist | dynamoAuthState.js:119-121 | fresh credentials saved under `"creds"` read back, plus their `id`, on the next start |
| AuthState.AuthStore.ReadData | dynamoAuthState.js:68-78 | `readData` on the store's table yields a value only for a stored key |
| AuthState.AuthStore.constructor | dynamoAuthState.js:91 | the credentials are the stored `"creds"` record when it reads back truthy, and fresh credentials otherwise |
| AuthState.AuthStore.Put | dynamoAuthState.js:59-65 | the new table and the outcome are those of the put; the credentials are untouched |
| AuthState.AuthStore.WriteData | dynamoAuthState.js:55-66 | the new table and the outcome are those of `writeData` |
| AuthState.AuthStore.RemoveData | dynamoAuthState.js:80-89 | the new table is the old one with the key removed when the request goes through |
| AuthState.AuthStore.KeysGet | dynamoAuthState.js:97-105 | the result's keys are exactly the requested ids whose `<type>-<id>` record reads back truthy, each mapped to that record |
| AuthState.AuthStore.KeysSet | dynamoAuthState.js:106-116 | the table ends as the batch's writes leave it, in iteration order and stopping at the first encoding failure; the promise resolves exactly when every put succeeded |
| AuthState.AuthStore.SetCategory | dynamoAuthState.js:109-113 | the inner loop issues one category's writes in order and reports the entry whose encoding threw |
| AuthState.AuthStore.SaveCreds | dynamoAuthState.js:119-121 | the current credentials are written under `"creds"`; the promise resolves exactly when the put succeeds |
| Text.TrimCutsWhitespace | test.js:389-391 | `trim()` removes exactly a run of white space from each end; what is left neither starts nor ends with white space, and it is empty exactly when the text is all white space |
| Text.LeadingWhitespace | test.js:390 | `trim()` stops at the first character that is not white space |
| Text.TrailingWhitespaceStart | test.js:390 | `trim()` keeps everything up to the last character that is not white space |
| Text.Split | test.js:395 | `split(" ")` gives at least one piece and no piece holds a space; joining the pieces with spaces gives back the text |
| Text.SplitLength | test.js:395 | `split(" ")` has one piece more than the text has spaces |
| Text.LowerChar | test.js:396 | `toLowerCase` maps `A`–`Z` to `a`–`z`; every other character it keeps, except U+212A |
| Text.Lower | test.js:396 | lower-casing works character by character and keeps the length |
| Text.LowerAppend | test.js:396 | lower-casing distributes over concatenation |
| Text.NatToString | test.js:86 | a number prints as a non-empty string of digits with no leading zero |
| Text.NatToStringRoundTrip | test.js:86 | the decimal digits printed for a number have that number as their value |
| Text.NatToStringInjective | dynamoAuthState.js:61-64 | different numbers print differently, so array indices spread to distinct keys |
| Text.IntToString | test.js:86 | a number prints with a leading `-` exactly when it is negative |
| Text.AppendLines | test.js:95-97 | a `forEach` that does `+=` on a string appends each element's line, in list order |
| Text.LinesAppend | test.js:103-105 | the lines of two lists put together are the lines of the first followed by those of the second |
| Text.LinesAt | test.js:103-105 | element `i`'s line comes right after the lines of the elements before it |
| Text.SplitHead | index.js:113-114 | a text that splits into several words is its first word, a space, and the rest |
| Aliases.FindFirst | test.js:159-161 | `find` reports the first entry satisfying the test, and none exactly when no entry does |
| Aliases.SetAlias | test.js:157-191 | `set` is refused exactly when the roll number is already stored; it appends exactly when neither the roll number nor the short form is stored; an update keeps the list length |
| Aliases.ConflictNamesHolder | test.js:159-171 | a refusal names the short form of the first entry holding the roll number |
| Aliases.UpdateTouchesOneEntry | test.js:173-183 | an update rewrites exactly the first entry with that short form and leaves every other entry, and their order, as they were |
| Aliases.SetThenResolve | test.js:173-191 | after an accepted `set`, the short form resolves to the new roll number and password |
| Aliases.SetKeepsUnique | test.js:157-191 | `set` never creates a second entry for a roll number or a short form |
| Aliases.RemoveAlias | test.js:256-258 | `filter` keeps exactly the entries with another short form, and the list shrinks exactly when the short form is stored |
| Aliases.RemoveAppend | test.js:256-258 | the entries kept by the filter stay in their relative order |
| Aliases.RemoveOne | test.js:256-259 | with unique short forms, deleting a stored short form removes exactly one entry |
| Aliases.RemoveAbsent | test.js:256-259 | deleting a short form that is not stored leaves the list as it was |
| Aliases.RemoveKeepsUnique | test.js:256-258 | deleting keeps the list free of duplicates |
| Chat.MessageText | test.js:389-391 | the text is the trimmed conversation when that is non-empty, the trimmed extended text otherwise, and empty exactly when both are |
| Chat.Words | test.js:395 | splitting the text always gives a first word |
| Attendance.TodaySection | test.js:93-100 | the part about today is missing (the formatter throws) exactly when there are no entries |
| Attendance.AttendanceMessage | test.js:83-107 | `buildAttendanceMessage` throws exactly when the report has no entry for today |
| Attendance.BuildAttendanceMessage | test.js:83-107 | the step-by-step `+=` build gives exactly the report text, or fails where the formatter throws |
| Attendance.MessageOpening | test.js:85-91 | the report opens with the greeting, the total line and the advice line |
| Attendance.AdviceByThreshold | test.js:88-91 | the report gives hours needed exactly when the total percentage is below 75, and hours to skip exactly when it is not |
| Attendance.Advice | test.js:88-91 | the advice line: hours needed below 75%, hours to skip otherwise; Attendance.AdviceByThreshold states the choice in both directions |
| Attendance.SkipMessage | test.js:369-374 | the `skip` reply built from the requested hours and the skip endpoint's answer; Router.SkipUsesFirstAlias states when it is sent |
| Attendance.TodayLinesInOrder | test.js:93-97 | when the first entry names a subject, today's part is the heading and then every entry's line in list order |
| Router.Classify | test.js:383-420 | own and empty messages are dropped; two words with a digit first are a direct request; otherwise the lower-cased first word picks `set`, `delete`, `shortforms`, `skip` or `logout`, and any other text is a retrieval of the whole text |
| Router.DirectReply | test.js:120-134 | a report is sent exactly when the body carries a `data` member the formatter can print; anything else gets the invalid-credentials reply |
| Router.Respond | test.js:383-422 | one message through `handleIncomingMessages`: the route Router.Classify picks, then its handler; Router.RespondFrame, Router.DefaultAlwaysSendsHelp and Router.RespondKeepsDirectoryUnique state its properties |
| Router.Dispatch | test.js:402-420 | the handler for each route, with `logout` doing nothing; Router.DispatchFrame states its frame |
| Router.RetrievalReplies | test.js:209-231 | `handleShortFormRetrieval`: the first stored entry with that short form is asked for, "Short form not found." otherwise; Router.DefaultAlwaysSendsHelp states when each reply is sent |
| Router.ShowReplies | test.js:289-316 | `handleShowShortForms`: the listing for a stored list, the no-short-forms reply otherwise; Router.Bot.HandleShowShortForms builds it line by line |
| Router.SkipReplies | test.js:347-381 | `handleSkipCommand`: the skip report about the first stored alias, and silence on every failure; Router.SkipUsesFirstAlias states when a reply is sent |
| Router.SetEffect | test.js:136-207 | `set` changes at most the sender's entry and sends exactly one reply, to the sender |
| Router.DeleteEffect | test.js:233-287 | `delete` changes at most the sender's entry and sends at most one reply, to the sender |
| Router.RespondFrame | test.js:383-422 | a message changes at most its sender's entry, answers only the sender, and sends two replies only from the default branch |
| Router.DispatchFrame | test.js:404-420 | every handler changes at most the sender's entry and sends at most two replies, to the sender |
| Router.IgnoredMessages | test.js:385-393 | an own message, or one without text, changes nothing and gets no reply |
| Router.DirectComesFirst | test.js:398-401 | two words with a digit first are answered as a direct request, even when the first word is a command |
| Router.DefaultAlwaysSendsHelp | test.js:415-419 | text that is no command gets the lookup's reply and then the help text, and writes nothing; "Short form not found." is sent exactly when the lookup fails; if the table does not answer, nothing is sent |
| Router.SetIgnoresValidation | test.js:145-148 | `set` has the same effect whatever the attendance endpoint answers |
| Router.SetNeedsFourWords | test.js:137-144 | `set` with fewer than four words gets the format error and writes nothing |
| Router.SetTableDown | test.js:199-206 | a well-formed `set` when the table does not answer gets the retry reply and writes nothing |
| Router.SetConflictWritesNothing | test.js:159-171 | a stored roll number is refused with the short form it is linked to, and the table is left as it was |
| Router.SetPersistsList | test.js:173-198 | otherwise the whole list SetAlias returns is written back, so an update rewrites only the first entry with that short form and keeps every other entry (Aliases.UpdateTouchesOneEntry); either the same length or with the new alias appended, the reply says whether the short form was updated or added, and the short form then resolves to the new pair |
| Router.DeleteWritesOnlyOnRemoval | test.js:233-287 | `delete` writes only when a stored entry has that short form; it then stores the filtered list, the short form no longer resolves, and the reply confirms it; otherwise it sends the format error for a missing id, the no-saved-forms reply for an empty list, the not-found reply when no entry matches, and nothing when the table does not answer |
| Router.SkipUsesFirstAlias | test.js:347-381 | `skip` replies exactly when the table answers, an alias is stored and the skip endpoint answers about the first alias |
| Router.RespondKeepsDirectoryUnique | test.js:383-422 | no message ever stores a second entry for a roll number or a short form |
| Router.SetEffectKeepsUnique | test.js:136-207 | `set` keeps every stored list free of duplicates |
| Router.DeleteEffectKeepsUnique | test.js:233-287 | `delete` keeps every stored list free of duplicates |
| Router.Bot.Send | test.js:75-81 | sending appends one reply and leaves the table alone |
| Router.Bot.HandleIncoming | test.js:383-422 | handling a message leaves the table and the replies exactly as `Respond` states |
| Router.Bot.HandleDirect | test.js:120-134 | the direct handler sends exactly the reply `DirectReply` states and writes nothing |
| Router.Bot.HandleSet | test.js:136-207 | rewriting the entry in place or pushing a new one, then writing the list, gives exactly `SetEffect` |
| Router.Bot.HandleRetrieval | test.js:209-231 | the retrieval sends exactly the replies `RetrievalReplies` states and writes nothing |
| Router.Bot.HandleDelete | test.js:233-287 | the delete handler gives exactly `DeleteEffect` |
| Router.Bot.HandleShowShortForms | test.js:289-316 | the listing built line by line is exactly the `ShowReplies` reply, and nothing is written |
| Router.Bot.HandleSkip | test.js:347-381 | the skip handler sends exactly the replies `SkipReplies` states and writes nothing |
| InlineHandler.TodayText | index.js:91-98 | today's part is missing (building it throws) exactly when there are no entries |
| InlineHandler.ReportText | index.js:72-100 | building the report throws exactly when there is no entry for today |
| InlineHandler.FormatReport | index.js:72-100 | the report accumulated line by line and put into one template is exactly the report text |
| InlineHandler.ReportReply | index.js:63-108 | the reply is the report when the request succeeds and the report can be built, and otherwise the given failure reply |
| InlineHandler.SkipInfo | index.js:84-89 | the skip line of the report; InlineHandler.SkipInfoByTruthiness states how it is chosen |
| InlineHandler.Lookup | index.js:185-202 | the lookup finds nothing when no stored entry has the whole text as its short form; otherwise it is decided by the first such entry alone: found exactly when that entry's roll number and password are non-empty |
| InlineHandler.SetEffect | index.js:113-181 | the `set` branch changes at most the sender's entry and sends exactly one reply, to the sender |
| InlineHandler.DeleteEffect | index.js:266-291 | the `delete ` branch changes at most the sender's entry and sends exactly one reply, to the sender |
| InlineHandler.ShowEffect | index.js:251-263 | `shortforms` writes nothing and sends exactly one reply, to the sender |
| InlineHandler.Keywords | index.js:249-297 | when no short form matched, the keywords and the help text change at most the sender's entry and send exactly one reply |
| InlineHandler.UpsertIgnores | index.js:46-57 | an own message, or one without text, changes nothing and gets no reply |
| InlineHandler.Upsert | index.js:43-57 | what the `messages.upsert` handler does with one message: own and empty messages are dropped, the rest go to InlineHandler.Handle; InlineHandler.UpsertFrame and InlineHandler.UpsertKeepsDirectoryUnique state its properties |
| InlineHandler.Handle | index.js:57-297 | the handler body: the direct rule, `set `, the short-form lookup, then the keywords; InlineHandler.UpsertDirectFirst, InlineHandler.LookupBeforeKeywords and InlineHandler.KeywordsInOrder state the order |
| InlineHandler.UpsertFrame | index.js:43-299 | a message changes at most its sender's entry and gets at most one reply, to the sender |
| InlineHandler.HandleFrame | index.js:57-297 | the body of the handler changes at most the sender's entry and sends at most one reply |
| InlineHandler.UpsertDirectFirst | index.js:59-110 | two words with a digit first get the attendance reply and nothing else happens |
| InlineHandler.SetWritesOnlyValidated | index.js:116-172 | `set` writes only when the tokens are present, the endpoint accepted the pair, the table answered and the roll number is new; it then writes the list the alias rules give |
| InlineHandler.LookupBeforeKeywords | index.js:184-251 | text naming a stored short form whose first entry has non-empty credentials is answered with that entry's attendance before any keyword is checked |
| InlineHandler.KeywordsInOrder | index.js:249-297 | text no stored short form answers gets the listing for `shortforms`, the delete branch for a `delete ` prefix, and the help text otherwise, in that order |
| InlineHandler.SetRefusals | index.js:113-181 | missing tokens get the format error, and a rejected roll number and password or a failing table get the retry reply; neither writes |
| InlineHandler.SetConflictWritesNothing | index.js:138-149 | a stored roll number is refused with the short form it is linked to, and the table is left as it was |
| InlineHandler.SetPersistsList | index.js:150-172 | an accepted `set` of a new roll number writes the whole list back, appended when the short form is new, replies updated or added accordingly, and the short form then resolves to the new pair |
| InlineHandler.DeleteWritesOnlyOnRemoval | index.js:266-291 | `delete ` writes only when a stored entry has that short form; it then stores the filtered list, the short form is gone, and the reply confirms it; otherwise it sends the format error for a missing id, the no-saved-forms reply for an empty list, and the not-found reply when no entry matches |
| InlineHandler.ListingInOrder | index.js:252-257 | `shortforms` lists every alias in storage order |
| InlineHandler.SkipInfoByTruthiness | index.js:84-89 | the skip line offers hours to skip exactly when `hours_can_skip` is non-zero, hours needed exactly when only `additional_hours_needed` is, and is empty otherwise |
| InlineHandler.UpsertKeepsDirectoryUnique | index.js:43-299 | no message ever stores a second entry for a roll number or a short form |
| InlineHandler.HandleKeepsUnique | index.js:57-297 | the handler body keeps every stored list free of duplicates |
| InlineHandler.InlineBot.Send | index.js:102 | sending appends one reply and leaves the table alone |
| InlineHandler.InlineBot.HandleUpsert | index.js:43-57 | handling a message leaves the table and the replies exactly as `Upsert` states |
| InlineHandler.InlineBot.HandleText | index.js:57-297 | the early-return chain gives exactly the effect `Handle` states |
| InlineHandler.InlineBot.AttendanceReply | index.js:63-108 | the `try` around the request and the report yields exactly `ReportReply` |
| InlineHandler.InlineBot.SetCommand | index.js:113-181 | rewriting the entry in place or pushing a new one, then writing the list, gives exactly `SetEffect` |
| InlineHandler.InlineBot.ShowShortForms | index.js:251-263 | the listing built line by line is exactly the `ShowEffect` reply |
| InlineHandler.InlineBot.DeleteCommand | index.js:266-291 | the delete branch gives exactly `DeleteEffect` |
| Versions.SetWordIsSetPrefix | index.js:113 | a text whose first word lower-cases to `set`, with a second word following, starts with `"set "` once lower-cased, so both bots take it for `set` |
| Versions.SetAgreesAcrossVersions | index.js:113-181 | a well-formed `set` whose credentials the endpoint accepts leaves the same table in index.js as in test.js |

## Left out

- The WhatsApp socket is not modelled:
  - connecting, QR codes, reconnecting after a drop, and the `creds.update` subscription (test.js:18-49, index.js:12-41, 301) are I/O;
  - `sendMessage` is modelled only as appending a reply to `sent`, so a failed send is not modelled.
- `logout` is modelled only as doing nothing. In the source it reloads the auth state and then fails on the missing `clearCreds`. `sock.logout` and the `setTimeout` restart are I/O.
- Console logging is not modelled.
- The attendance and skip endpoints are parameters. The HTTP requests, and the shape of their failure, are not modelled.
- The credentials' key generation and randomness are inputs (`KeyMaterial`): `Curve.generateKeyPair`, `signedKeyPair`, `generateRegistrationId` and `randomBytes`.
- `Promise.all` is modelled as a sequential loop. `keys.get` and `keys.set` issue their requests in iteration order and see them complete in that order. Concurrent completion, and the interleaving of handlers for different messages, are not modelled.
- A `put` in `user_info` that fails after a successful `get` is not modelled: `dbUp` covers both requests of a handler.
- A `user_info` item without a `credentials` list is not modelled. The model stores a list for every number present, so the TypeError index.js raises on such an item cannot arise.
- JSON text is not modelled. Stringify and parse work on the value the text stands for.
- Numbers are integers. Floating-point percentages and hours, `NaN`, and values JSON drops (`undefined`, functions) are not modelled.
- `Buffer.from` on an array turns each element into a byte: a number modulo 256, `true` as 1, and anything else as 0. Strings holding numbers and fractional values are simplified this way.
- Json.BufferFrom: a `length` too large to allocate, which makes Node throw a `RangeError`, is not modelled. Nor are objects with a `valueOf` or `Symbol.toPrimitive` of their own, or the `buffer` member of typed-array views; values of this model have none of these.
- Spreading a string is modelled per Unicode scalar value. JavaScript spreads per UTF-16 code unit, which differs for characters outside the Basic Multilingual Plane.
- DynamoDB's item size limits, reserved attribute types and empty-string rules are not modelled. A put is rejected only for an item whose `id` is not a non-empty string.
- Text.Lower: only maps `A`–`Z` and U+212A. Other characters that JavaScript lower-cases are kept as they are. This cannot change a comparison with the ASCII command words.
- Replies are recorded as `Notice` values, and `Wording` holds the exact texts. No lemma is stated about the texts themselves.
- Router.SetEffect: its own contract states only the frame and the single reply. Router.SetNeedsFourWords, Router.SetTableDown, Router.SetConflictWritesNothing and Router.SetPersistsList state every reply and what gets written.
- InlineHandler.SetEffect: its own contract states only the frame and the single reply. InlineHandler.SetRefusals, InlineHandler.SetConflictWritesNothing, InlineHandler.SetPersistsList and InlineHandler.SetWritesOnlyValidated state every reply and what gets written.
- Router.DeleteEffect: its own contract states only the frame and the reply count. Router.DeleteWritesOnlyOnRemoval states every reply and what gets written.
- InlineHandler.DeleteEffect: its own contract states only the frame and the reply count. InlineHandler.DeleteWritesOnlyOnRemoval states every reply and what gets written.
- InlineHandler.Keywords: its own contract states only the frame and the single reply. InlineHandler.KeywordsInOrder states the order of `shortforms`, `delete ` and the help text.
