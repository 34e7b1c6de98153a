# GrabTrio bot: a Dafny model of one event's handling

GrabTrio is a Telegram bot. A user sends a video link. The bot keeps it as that user's last URL and offers three quality buttons. When the user presses one, the bot downloads the video with yt_dlp into a fixed file `video.mp4`, sends it, reports success or the error on an editable status message, and always deletes the file.

This project models the handling of one inbound event as a state change plus a sequence of outbound effects:

- The state is the per-user last-URL store (`user_last_url`).
- An event is a text message or an inline-button press.
- telebot and yt_dlp are outside collaborators. The calls the bot makes on them become `Effect` values, in order. A call that raises still appears, because it was attempted.
- The outcome of each call is given by a `World` record: each call ends `Ok` or `Fail(msg)`. The status send returns the sent message's id. The record also says whether the output file exists once yt_dlp returns, which other files yt_dlp created and left behind (partial downloads, unmerged per-format files), which existing files it deleted (a resumed partial download, merged per-format files), and whether `os.remove` raises.
- The filesystem is a set of existing paths, passed in and returned by value.

Files:

- `wrappers.dfy` (`Wrappers`): `Option`, the result of `dict.get`.
- `pystr.dfy` (`PyStr`): the Python string operations the bot uses: `startswith`, `isspace` and `strip`.
- `telegram.dfy` (`Telegram`): the event, effect, outcome and keyboard types.
- `handlers.dfy` (`Handlers`): the four message filters and telebot's first-match dispatch in registration order, the callback filter, the token-to-preset table, the keyboards and the texts.
- `download.dfy` (`Download`): `download_with_ytdlp`. `DownloadRun` states the try/except/finally flow as a function. The method `DownloadWithYtdlp` carries it out step by step and is proved equal to it. Lemmas state its properties.
- `bot.dfy` (`Bot`): the class `Bot` with the `userLastUrl` map field and one method per handler. It also holds the pure step functions `SessionsAfter`, `QualityRun` and `EventRun`, which the methods are proved against, and lemmas about single events and event sequences.

Points where the code's behaviour is easy to misread:

- A message that no filter accepts gets no reply. The code has no fallback "unsupported input" handler.
- `quality_callback` looks the URL up before it answers the query or sends any status. So a press with no stored URL produces only the "No URL found" answer.
- Every `q_` token other than `q_best` and `q_720` selects the 1080p preset, not only `q_1080`.
- The download writes to the one fixed path `video.mp4`. There are no per-request temporary files. The `finally` block removes only that path. The other files yt_dlp creates or deletes are its own business: whatever it leaves stays on disk, and whatever it deletes is gone.

## Model

| member | source | states |
|---|---|---|
| `PyStr.StripLeft` | main.py:68 | the result is a suffix of the input; everything cut off is whitespace; the result does not start with whitespace |
| `PyStr.StripRight` | main.py:68 | the result is a prefix of the input; everything cut off is whitespace; the result does not end with whitespace |
| `PyStr.Strip` | main.py:68 | a non-empty stripped URL neither starts nor ends with whitespace |
| `PyStr.StripIsTrim` | main.py:68 | `strip` keeps one contiguous piece of the text and cuts only whitespace from each end |
| `PyStr.StripKeepsPrefix` | main.py:66-68 | a prefix with no whitespace at either end, such as "http", survives `strip` |
| `PyStr.StripOfTrimmed` | main.py:68 | a text with no whitespace at either end is its own strip |
| `PyStr.StripIdempotent` | main.py:68 | stripping twice equals stripping once |
| `PyStr.StripEmptyIffAllSpace` | main.py:68 | the strip is empty exactly when the text is all whitespace |
| `Telegram.ContainsTransitive` | main.py:136-138 | substring containment is transitive, so the error notice contains whatever the exception text contains |
| `Handlers.ErrorText` | main.py:136-142 | the error notice contains the exception's text and is never the success notice |
| `Handlers.FirstWord` | main.py:26 | the first word is a whitespace-free prefix of the text, non-empty when the text does not start with whitespace, and it ends at the end of the text or at a whitespace character |
| `Handlers.BeforeAt` | main.py:26 | the command word cut at `@` is a prefix without `@`, non-empty when the word does not start with `@`, and it ends at the end of the word or at an `@` |
| `Handlers.IsStartCommand` | main.py:26 | the `commands=["start"]` filter accepts a text exactly when it begins with "/start" followed by nothing, by whitespace or by `@` |
| `Handlers.StartCommandWord` | main.py:26 | a text starting with `/` has a non-empty command word, and that word minus the slash is "start" exactly when the text begins with "/start" followed by nothing, whitespace or `@` |
| `Handlers.CommandWordIs` | main.py:26 | the command word of any text is a prefix of it followed by nothing, whitespace or `@` |
| `Handlers.CommandWordOf` | main.py:26 | a text that begins with a word free of whitespace and `@`, followed by nothing, whitespace or `@`, has exactly that word as its command word |
| `Handlers.IsHowToUse` | main.py:41 | a text the help filter accepts is neither a command nor a link |
| `Handlers.IsAboutBot` | main.py:55 | a text the about filter accepts is neither a command nor a link |
| `Handlers.IsQualityCallback` | main.py:73-86 | each of the three button tokens passes the `q_` callback filter |
| `Handlers.FirstMatch` | main.py:26-66 | telebot's dispatch returns the first handler in the given order whose filter accepts the text: it is in the order, it accepts the text, and no handler before it does; it returns none only when no filter in the order accepts it |
| `Handlers.FiltersExclusive` | main.py:26-66 | no text is accepted by two of the `/start`, help, about and URL filters |
| `Handlers.TriggersAreNotUrls` | main.py:26-66 | none of `/start`, "📥 How to use" and "ℹ️ About bot" starts with "http" |
| `Handlers.Route` | main.py:26-66 | the source's order routes a text to each handler exactly when that handler's filter accepts it, in both directions |
| `Handlers.AnyOrderRoutesAlike` | main.py:26-66 | any registration order of the four handlers dispatches every text as the source's order does |
| `Handlers.MainMenuReachesItsHandlers` | main.py:19-55 | the two main-menu labels route to the help and the about handler and never to the URL handler |
| `Handlers.PresetFor` | main.py:95-105 | `q_best` selects `bv*+ba/b` (Best) and `q_720` selects the 720 selector (720p), each exactly; every other token selects the 1080 selector (1080p) |
| `Handlers.PresetFormatsAreTheTable` | main.py:95-105 | only the table's three selectors and labels can come out of the table |
| `Handlers.QualityButtonsSelectTheirPresets` | main.py:71-105 | every quality button's token passes the `q_` callback filter; its preset's label ends the button caption; the three buttons select three different formats |
| `Download.AfterAdapter` | main.py:123-125 | after the download the output file exists exactly when yt_dlp left it; any other path exists exactly when yt_dlp created it, or when it existed before and yt_dlp did not delete it |
| `Download.TryBlock` | main.py:123-134 | the try block starts with the one yt_dlp call and ends without an exception exactly when the download, the open, the send and the success edit all went through |
| `Download.DownloadRun` | main.py:112-146 | every status edit targets the chat and the id of the status message just sent, and the only video sent is `video.mp4` to that chat |
| `Download.DownloadWithYtdlp` | main.py:112-146 | the step-by-step flow (status, try, except, finally) has exactly the effects, final filesystem and escaping exception of `DownloadRun` |
| `Download.CleanupAlwaysRuns` | main.py:144-146 | once the status is sent, the last effect is the removal of `video.mp4` exactly when the file was on disk; unless that removal raises, `video.mp4` is absent afterwards; apart from `video.mp4` the files afterwards are exactly those the download left (`AfterAdapter`); a removal that raises leaves the file and its exception escapes; a failed status send touches nothing |
| `Download.AnnounceThenFetch` | main.py:113-125 | the status message comes first; if it fails nothing else happens; otherwise the second effect is the only yt_dlp call, with the selector, `video.mp4`, `noplaylist` true and merge format mp4 |
| `Download.VideoSentOnlyAfterDownload` | main.py:123-128 | the video is sent exactly when the status was sent, the download succeeded and the file exists, and then it is the third effect |
| `Download.DoneOnlyAfterVideo` | main.py:128-134 | the "✅ Download complete!" edit is attempted exactly when the video was sent successfully |
| `Download.FailuresAreReported` | main.py:123-146 | each exception in the try block (download, open, send, success edit) is reported by an error edit carrying its text; there is no error edit when nothing raised; an exception escapes only when an error edit or the removal of `video.mp4` fails, and a failed removal's exception is the one that escapes |
| `Bot.Lookup` | main.py:88-90 | `dict.get` finds an entry exactly for a user in the store, returns the stored value, and under the invariant what it finds starts with "http" |
| `Bot.QualityRun` | main.py:86-108 | every press in the callback handler is answered, and the answer to the pressed query is the first effect |
| `Bot.SessionsAfter` | main.py:66-69 | one event never drops an entry, adds at most the sender's entry, changes no other entry, and a callback leaves the store as it was |
| `Bot.EventRun` | main.py:26-108 | a text message gets at most one reply and touches no file; it gets none exactly when no filter accepts it; a callback has effects exactly when its token passes the `q_` filter |
| `Bot.Bot.constructor` | main.py:14 | the store starts empty and satisfies the invariant |
| `Bot.Bot.StartHandler` | main.py:26-37 | sends exactly the greeting with the main menu; cannot write the store |
| `Bot.Bot.HowToUse` | main.py:41-51 | sends exactly the help text; cannot write the store |
| `Bot.Bot.AboutBot` | main.py:55-62 | sends exactly the about text; cannot write the store |
| `Bot.Bot.UrlHandler` | main.py:66-82 | overwrites the sender's entry with the stripped text, sends the link-received text with the quality keyboard, and keeps every stored URL starting with "http" |
| `Bot.Bot.QualityCallback` | main.py:86-108 | the press is handled as `QualityRun` on the current store; the method cannot write the store; while the store's invariant holds, every yt_dlp call it makes is on a URL starting with "http" |
| `Bot.Bot.Handle` | main.py:26-108 | one event changes the store as `SessionsAfter` says and has the effects of `EventRun`; the stored-URL invariant is preserved |
| `Bot.OnlyUrlMessagesWrite` | main.py:26-108 | a URL message sets the sender's entry to the stripped text and leaves every other entry unchanged; every other event leaves the store unchanged |
| `Bot.StoringLinkKeepsLinks` | main.py:66-69 | storing the strip of a text that passes the URL filter keeps every stored URL starting with "http" |
| `Bot.StoreKeepsOnlyLinks` | main.py:66-69 | no event can make a stored URL stop starting with "http" |
| `Bot.LastWriteWins` | main.py:66-69 | after any sequence of events, a user's entry is the strip of their latest URL message, or the earlier entry if they sent none |
| `Bot.ReplayKeepsOnlyLinks` | main.py:66-69 | along any sequence of events, every stored URL starts with "http" |
| `Bot.MissingLinkOnlyAnswers` | main.py:89-93 | with no entry or an empty one, the only effect is the "No URL found" answer and no file changes; that answer appears only in that case |
| `Bot.LinkedPressDownloads` | main.py:95-146 | with a stored URL, the effects are the "Downloading <label>…" answer, then the status, then one yt_dlp call on the stored URL with the token's selector; unless removing `video.mp4` raises, it is gone afterwards and every other file is as the download left it |
| `Bot.AdapterSeesOnlyStoredLinks` | main.py:89-121 | yt_dlp is only called on the pressing user's stored URL, which starts with "http" under the invariant, with one of the three selectors and the fixed options |
| `Bot.NeverLinkedNeverDownloads` | main.py:14-93 | a user who never sent a URL since startup only gets the "No URL found" answer, whatever they press |
| `Bot.PressChangesOnlyDownloadFiles` | main.py:86-146 | a press that does not call yt_dlp leaves the files as they were; one that does changes, apart from `video.mp4`, only as the download did (files it created or deleted), and leaves no `video.mp4` unless removing it raised |
| `Bot.EventChangesOnlyDownloadFiles` | main.py:26-146 | the same for every event: a text message touches no file, and only a download changes files in the way just stated |
| `Bot.LinkThen720` | main.py:66-105 | after a pasted link, the store holds exactly that link, and a `q_720` press runs the quality flow on it |
| `Bot.ScenarioDelivered` | main.py:66-146 | link, then 720p, with every call succeeding: the link gets exactly the link-received text with the quality keyboard, and the press exactly: answer, status, download, video, success edit, file removal; only what yt_dlp created and left behind stays on disk |
| `Bot.ScenarioUnsupportedSite` | main.py:66-146 | link, then 720p, with yt_dlp raising "unsupported site" and the error edit and the removal succeeding: no video is sent, the error edit mentions "unsupported site", no `video.mp4` is left and nothing escapes |
| `Bot.ScenarioAboutFirst` | main.py:55-62 | "ℹ️ About bot" before any link sends the about text and leaves the store empty |

## Left out

- The Flask `/webhook` route and its content-type check (main.py:150-158), and startup with `remove_webhook`, `set_webhook` and `server.run` (main.py:162-165). These are transport plumbing.
- Reading `BOT_TOKEN`, `WEBHOOK_URL` and `PORT` from the environment, and building the bot and the Flask app (main.py:8-12). These are configuration.
- Concurrency. `threaded=True` lets telebot run handlers on worker threads. The model handles one event at a time, so the race on the shared `video.mp4` between two simultaneous downloads is not modelled.
- yt_dlp's fetching and muxing, and telebot's sending, editing and answering. They are foreign library calls. They appear only as effects, with outcomes supplied by `World`. Whether the output file exists after the download, and which other files yt_dlp creates and deletes, are also supplied, not derived.
- `os.path.exists` is taken to answer truthfully and never to raise. Only `os.remove` can fail in the model.
- telebot's `commands` filter is library code, not part of the source. `IsStartCommand` restates its documented rule: the text starts with `/`, and its first word, cut at `@`, is `/start`.
- Non-text messages are not modelled. telebot's message handlers see only text messages by default, so every modelled message has a text.
- What telebot does with an exception that escapes a handler (it logs it) is not modelled. The model only reports the exception as `raised`.
- Markdown parse modes, `resize_keyboard`, and the message ids of the sent replies are not modelled. The greeting, help and about texts are carried as constants, and no property depends on their wording.
- `send_video` receives an open file object. The model records the path that was opened instead.

