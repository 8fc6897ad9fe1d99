/**
 * What both versions of the bot receive and send: an incoming WhatsApp
 * message, reduced to the parts the handlers read, and an outgoing text reply.
 */
module Chat {
  import opened Wrappers
  import Text
  import opened Aliases

  /**
   * `messages[0]` of an upsert: whether the bot sent it itself
   * (`key.fromMe`), the chat it came from (`key.remoteJid`) and the two places
   * a text can sit (`message.conversation`, `message.extendedTextMessage.text`).
   */
  datatype Message = Message(fromMe: bool, sender: string, conversation: Option<string>, extendedText: Option<string>)

  /**
   * One `sock.sendMessage(to, { text })`. Each version of the bot names its
   * replies by a notice `N`; its `Wording` function gives the text sent.
   */
  datatype Reply<N> = Reply(to: string, notice: N)

  /** What one incoming message does: the table afterwards and the replies sent, in order. */
  datatype Effect<N> = Effect(users: Users, replies: seq<Reply<N>>)

  /** `after` differs from `before` at most in the entry for `phone`. */
  ghost predicate OnlyTouches(before: Users, after: Users, phone: string) {
    && (forall p | p != phone :: (p in after <==> p in before))
    && (forall p | p != phone && p in before :: after[p] == before[p])
  }

  function TrimmedOr(s: Option<string>): string {
    match s
    case Some(t) => Text.Trim(t)
    case None => ""
  }

  /**
   * `message.message?.conversation?.trim() || message.message?.extendedTextMessage?.text?.trim()`,
   * with `""` for a falsy result: the conversation text when it holds more
   * than white space, the extended text otherwise.
   */
  function MessageText(m: Message): (t: string)
    ensures t != "" ==> t == TrimmedOr(m.conversation) || t == TrimmedOr(m.extendedText)
    ensures TrimmedOr(m.conversation) != "" ==> t == TrimmedOr(m.conversation)
    ensures t == "" <==> TrimmedOr(m.conversation) == "" && TrimmedOr(m.extendedText) == ""
  {
    var c := TrimmedOr(m.conversation);
    if c != "" then c else TrimmedOr(m.extendedText)
  }

  /** `msgText.split(" ")`. */
  function Words(text: string): (words: seq<string>)
    ensures |words| >= 1
  {
    Text.Split(text, ' ')
  }

  /** Two space-separated words, the first starting with a digit: a roll number and a password. */
  predicate IsDirect(words: seq<string>) {
    |words| == 2 && Text.StartsWithDigit(words[0])
  }
}
