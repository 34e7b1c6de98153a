/**
 * The bot's collaborators, seen from the bot: the events telebot delivers, the
 * calls the bot makes on telebot, yt_dlp and the filesystem (as effects), and
 * the outcomes those calls have (supplied from outside, never computed).
 */
module Telegram {
  import opened Wrappers

  type UserId = int
  type ChatId = int
  type Path = string

  /** A text message: who sent it, the chat to answer in, and its text. */
  datatype Message = Message(sender: UserId, chat: ChatId, text: string)

  /** The press of an inline button: the query's id, who pressed it, the chat of the message it was on, and its token. */
  datatype Call = Call(callId: string, sender: UserId, chat: ChatId, data: string)

  /** One inbound update. */
  datatype Event = TextMessage(message: Message) | CallbackQuery(call: Call)

  /** A button of an inline keyboard: its caption and the token it sends back. */
  datatype Button = Button(caption: string, callbackData: string)

  /** The keyboard attached to an outbound text. */
  datatype Markup =
    | NoMarkup
    | ReplyKeyboard(labels: seq<seq<string>>)
    | InlineKeyboard(buttons: seq<seq<Button>>)

  /** The options dictionary handed to `yt_dlp.YoutubeDL`. */
  datatype YdlOptions = YdlOptions(format: string, outtmpl: Path, noplaylist: bool, mergeOutputFormat: string)

  /** A call the bot makes on the outside world, in the order it makes them (attempted calls included). */
  datatype Effect =
    | SendText(chat: ChatId, text: string, markup: Markup)
    | AnswerCallback(callId: string, text: string)
    | AdapterCall(url: string, opts: YdlOptions)
    | SendVideo(chat: ChatId, path: Path)
    | EditStatus(chat: ChatId, messageId: int, text: string)
    | Remove(path: Path)

  /** How a call that can raise ended: normally, or with an exception whose `str` is `msg`. */
  datatype Outcome = Ok | Fail(msg: string)

  /** How `send_message` of the status line ended: with the sent message's id, or an exception. */
  datatype Sent = Sent(messageId: int) | SendFailed(msg: string)

  /**
   * What the outside world does while one event is handled: the outcome of each
   * telebot call, of the yt_dlp download and of the file removal, whether the
   * download left the output file on disk (on success or failure alike, yt_dlp
   * may or may not), which other paths it created and left behind (partial
   * downloads, per-format files of a failed merge), and which existing paths it
   * deleted (a resumed partial download it renamed, per-format files it merged).
   */
  datatype World = World(
    reply: Outcome,          // the one send_message of a message handler
    answer: Outcome,         // answer_callback_query
    status: Sent,            // send_message of the status line
    adapter: Outcome,        // the yt_dlp download of the URL
    fileAfterAdapter: bool,  // whether the output path exists once the download returns or raises
    leftovers: set<Path>,    // paths the download created and did not delete
    consumed: set<Path>,     // paths that existed before the download and that it deleted
    sendVideo: Outcome,      // send_video
    editDone: Outcome,       // edit_message_text to the success notice
    editError: Outcome,      // edit_message_text to the error notice
    remove: Outcome)         // os.remove of the output file

  /** What handling one event did: the effects in order, the filesystem afterwards, and the exception that escaped, if any. */
  datatype Run = Run(effects: seq<Effect>, files: set<Path>, raised: Option<string>)

  /** The exception an outcome raises, if any. */
  function Raised(o: Outcome): Option<string>
  {
    if o.Fail? then Some(o.msg) else None
  }

  /** `needle in hay` for Python strings. */
  ghost predicate Contains(hay: string, needle: string)
  {
    exists i, j :: 0 <= i <= j <= |hay| && hay[i..j] == needle
  }

  /** Containment is transitive. */
  lemma ContainsTransitive(a: string, b: string, c: string)
    requires Contains(a, b) && Contains(b, c)
    ensures Contains(a, c)
  {
    var i, j :| 0 <= i <= j <= |a| && a[i..j] == b;
    var k, l :| 0 <= k <= l <= |b| && b[k..l] == c;
    assert |b| == j - i;
    forall t | 0 <= t < l - k ensures a[i + k..i + l][t] == c[t] {
      assert c[t] == b[k + t] == a[i + k + t];
    }
    assert a[i + k..i + l] == c;
  }
}
