/**
 * The Telegram client of pkg/notifiers/telegram/telegram.go: its name, Send with the chat-ID
 * check that guards it, and the "/broadcast" command parser.
 */
module TelegramClient {
  import opened Wrappers
  import opened Strconv
  import opened GoStrings
  import opened Models
  import TelegramFormatter

  const BroadcastPrefix: string := "/broadcast "

  /** Name() of the Telegram notifier; the notifier registry files it under this key. */
  function Name(): string {
    "telegram"
  }

  /**
   * What SendMessage does with a chat ID: either it rejects the ID before any request is
   * made, or it makes one Bot API request with the parsed numeric ID; `accepted` is the
   * API's answer, which the model takes as an input.
   */
  datatype SendResult = InvalidChatId | Requested(chatId: int, text: string, parseMode: string, accepted: bool) {
    predicate Failed() {
      InvalidChatId? || !accepted
    }
  }

  function SendMessage(chatID: string, text: string, parseMode: string, accepted: bool): (r: SendResult)
    ensures r.InvalidChatId? <==> ParseInt64(chatID).None?
    ensures r.Requested? ==> Some(r.chatId) == ParseInt64(chatID) && r.text == text && r.parseMode == parseMode
    ensures r.Requested? ==> r.accepted == accepted
  {
    match ParseInt64(chatID)
    case None => InvalidChatId
    case Some(id) => Requested(id, text, parseMode, accepted)
  }

  /**
   * Send of the Telegram notifier: the notification formatted at `now`, sent as Markdown to
   * `destination` through SendMessage, so a destination that is not a chat ID fails unsent.
   */
  function Send(destination: string, n: Notification, now: string, accepted: bool): (r: SendResult)
    ensures r.InvalidChatId? <==> ParseInt64(destination).None?
    ensures r.Requested? ==>
      Some(r.chatId) == ParseInt64(destination) && r.text == TelegramFormatter.Text(n, now) && r.parseMode == "Markdown"
    ensures r.Failed() <==> ParseInt64(destination).None? || !accepted
  {
    SendMessage(destination, TelegramFormatter.Text(n, now), "Markdown", accepted)
  }

  /** Every int64 chat ID written in decimal gets through the check with its own value. */
  lemma SendToDecimalChat(id: int, text: string, parseMode: string, accepted: bool)
    requires MinInt64 <= id <= MaxInt64
    ensures SendMessage(FormatInt(id), text, parseMode, accepted) == Requested(id, text, parseMode, accepted)
  {
    ParseFormatInt(id);
  }

  /** A channel handle such as "@zeta" is not a chat ID: nothing is sent. */
  lemma HandleIsNotChatId(text: string, parseMode: string, accepted: bool)
    ensures SendMessage("@zeta", text, parseMode, accepted) == InvalidChatId
  {
    assert !IsDigit('@');
  }

  /**
   * parseBroadcastCommand: the message after "/broadcast " with the surrounding white
   * space trimmed, or ("", false) when the prefix is missing or nothing is left.
   */
  function ParseBroadcastCommand(text: string): (r: (string, bool))
    ensures !HasPrefix(text, BroadcastPrefix) ==> r == ("", false)
    ensures r.1 ==> r.0 != "" && Trimmed(r.0)
    ensures r.1 ==> r.0 == TrimSpace(text[|BroadcastPrefix|..])
    ensures !r.1 ==> r.0 == ""
  {
    if !HasPrefix(text, BroadcastPrefix) then ("", false)
    else
      var message := TrimSpace(TrimPrefix(text, BroadcastPrefix));
      if message == "" then ("", false) else (message, true)
  }

  /** The command without its separating space is not a broadcast. */
  lemma BareCommandRejected()
    ensures ParseBroadcastCommand("/broadcast") == ("", false)
  {
  }

  /** A remainder of nothing but white space is rejected. */
  lemma BlankBroadcastRejected(blank: string)
    requires AllSpace(blank)
    ensures ParseBroadcastCommand(BroadcastPrefix + blank) == ("", false)
  {
    assert (BroadcastPrefix + blank)[..|BroadcastPrefix|] == BroadcastPrefix;
    assert (BroadcastPrefix + blank)[|BroadcastPrefix|..] == blank;
    TrimSpaceOfSpaces(blank);
  }

  /** Round trip: a trimmed non-empty message, padded with any white space, comes back intact. */
  lemma BroadcastRoundTrip(m: string, pre: string, post: string)
    requires m != "" && Trimmed(m) && AllSpace(pre) && AllSpace(post)
    ensures ParseBroadcastCommand(BroadcastPrefix + pre + m + post) == (m, true)
  {
    var text := BroadcastPrefix + pre + m + post;
    assert text[..|BroadcastPrefix|] == BroadcastPrefix;
    assert text[|BroadcastPrefix|..] == pre + m + post;
    TrimSpaceAround(pre, m, post);
  }
}
