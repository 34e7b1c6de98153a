/**
 * The bot itself: the per-user last-URL store, the five handlers, telebot's
 * dispatch of one event, and what a sequence of events does to the store.
 */
module Bot {
  import opened Wrappers
  import opened PyStr
  import opened Telegram
  import opened Handlers
  import opened Download

  /** `user_last_url`: the last link each user sent. */
  type Sessions = map<UserId, string>

  /** `dict.get`: the entry of a user, absent when they have none; under the invariant an entry found is a link. */
  function Lookup(s: Sessions, u: UserId): (r: Option<string>)
    ensures r.Some? <==> u in s
    ensures r.Some? ==> r.value == s[u]
    ensures r.Some? && StoredUrlsAreLinks(s) ==> StartsWith(r.value, "http")
  {
    if u in s then Some(s[u]) else None
  }

  /** The callback's missing-link test: no entry, or an empty one (Python treats both as false). */
  predicate NoUrl(url: Option<string>)
  {
    url.None? || url.value == ""
  }

  /** The store's invariant: every stored URL begins with "http". */
  ghost predicate StoredUrlsAreLinks(s: Sessions)
  {
    forall u :: u in s ==> StartsWith(s[u], "http")
  }

  /** A handler whose whole work is one `send_message`. */
  function Reply(chat: ChatId, text: string, markup: Markup, files: set<Path>, w: World): Run
  {
    Run([SendText(chat, text, markup)], files, Raised(w.reply))
  }

  /** `quality_callback`: look the link up, pick the preset, answer the query, download. Every press is answered, first. */
  function QualityRun(s: Sessions, c: Call, files: set<Path>, w: World): (r: Run)
    ensures r.effects != [] && r.effects[0].AnswerCallback? && r.effects[0].callId == c.callId
  {
    var url := Lookup(s, c.sender);
    if NoUrl(url) then Run([AnswerCallback(c.callId, NoUrlText)], files, Raised(w.answer))
    else
      var p := PresetFor(c.data);
      var answered := AnswerCallback(c.callId, DownloadingAnswer(p.quality));
      if w.answer.Fail? then Run([answered], files, Some(w.answer.msg))
      else
        var d := DownloadRun(c.chat, url.value, p.format, p.quality, files, w);
        Run([answered] + d.effects, d.files, d.raised)
  }

  /**
   * The store after one event: only a message routed to `url_handler` writes it.
   * No entry is ever dropped, and no entry but the sender's changes.
   */
  function SessionsAfter(s: Sessions, e: Event): (r: Sessions)
    ensures s.Keys <= r.Keys
    ensures r.Keys <= s.Keys + (if e.TextMessage? then {e.message.sender} else {})
    ensures forall v :: v in s && !(e.TextMessage? && v == e.message.sender) ==> r[v] == s[v]
    ensures e.CallbackQuery? ==> r == s
  {
    match e
    case TextMessage(m) => if Route(m.text) == Some(UrlRoute) then s[m.sender := Strip(m.text)] else s
    case CallbackQuery(_) => s
  }

  /**
   * What handling one event does: the handler telebot picks runs; an event no
   * filter accepts is dropped. A text message gets one reply, or none when no
   * filter accepts it, and touches no file.
   */
  function EventRun(s: Sessions, files: set<Path>, e: Event, w: World): (r: Run)
    ensures e.TextMessage? ==> r.files == files && |r.effects| <= 1
    ensures e.TextMessage? ==> (r.effects == [] <==> Route(e.message.text).None?)
    ensures e.CallbackQuery? ==> (r.effects == [] <==> !IsQualityCallback(e.call.data))
  {
    match e
    case TextMessage(m) =>
      (match Route(m.text)
       case None => Run([], files, None)
       case Some(StartRoute) => Reply(m.chat, WelcomeText, MainMenu, files, w)
       case Some(HelpRoute) => Reply(m.chat, HelpText, NoMarkup, files, w)
       case Some(AboutRoute) => Reply(m.chat, AboutText, NoMarkup, files, w)
       case Some(UrlRoute) => Reply(m.chat, LinkReceivedText, QualityKeyboard, files, w))
    case CallbackQuery(c) =>
      if IsQualityCallback(c.data) then QualityRun(s, c, files, w) else Run([], files, None)
  }

  /** The bot process: its one piece of mutable state is the last-URL store. */
  class Bot {
    var userLastUrl: Sessions

    ghost predicate Valid()
      reads this
    {
      StoredUrlsAreLinks(userLastUrl)
    }

    constructor ()
      ensures Valid() && userLastUrl == map[]
    {
      userLastUrl := map[];
    }

    /** `start_handler`: greets with the main menu. */
    method StartHandler(m: Message, files: set<Path>, w: World) returns (run: Run)
      ensures run.effects == [SendText(m.chat, WelcomeText, MainMenu)]
      ensures run.files == files && run.raised == Raised(w.reply)
    {
      run := Run([SendText(m.chat, WelcomeText, MainMenu)], files, Raised(w.reply));
    }

    /** `how_to_use`: sends the help text. */
    method HowToUse(m: Message, files: set<Path>, w: World) returns (run: Run)
      ensures run.effects == [SendText(m.chat, HelpText, NoMarkup)]
      ensures run.files == files && run.raised == Raised(w.reply)
    {
      run := Run([SendText(m.chat, HelpText, NoMarkup)], files, Raised(w.reply));
    }

    /** `about_bot`: sends the about text. */
    method AboutBot(m: Message, files: set<Path>, w: World) returns (run: Run)
      ensures run.effects == [SendText(m.chat, AboutText, NoMarkup)]
      ensures run.files == files && run.raised == Raised(w.reply)
    {
      run := Run([SendText(m.chat, AboutText, NoMarkup)], files, Raised(w.reply));
    }

    /** `url_handler`: stores the stripped link under the sender, then offers the qualities. */
    method UrlHandler(m: Message, files: set<Path>, w: World) returns (run: Run)
      modifies this
      ensures userLastUrl == old(userLastUrl)[m.sender := Strip(m.text)]
      ensures run == Reply(m.chat, LinkReceivedText, QualityKeyboard, files, w)
      ensures old(Valid()) && IsUrlText(m.text) ==> Valid()
    {
      ghost var before := userLastUrl;
      var url := Strip(m.text);
      userLastUrl := userLastUrl[m.sender := url];
      if IsUrlText(m.text) && StoredUrlsAreLinks(before) {
        StoringLinkKeepsLinks(before, m.sender, m.text);
      }
      run := Run([SendText(m.chat, LinkReceivedText, QualityKeyboard)], files, Raised(w.reply));
    }

    /** `quality_callback`: reads the store and never writes it. */
    method QualityCallback(c: Call, files: set<Path>, w: World) returns (run: Run)
      ensures run == QualityRun(userLastUrl, c, files, w)
      ensures Valid() ==> forall k :: 0 <= k < |run.effects| && run.effects[k].AdapterCall? ==> StartsWith(run.effects[k].url, "http")
    {
      var url := Lookup(userLastUrl, c.sender);
      if NoUrl(url) {
        return Run([AnswerCallback(c.callId, NoUrlText)], files, Raised(w.answer));
      }
      var p := PresetFor(c.data);
      var answered := AnswerCallback(c.callId, DownloadingAnswer(p.quality));
      if w.answer.Fail? {
        return Run([answered], files, Some(w.answer.msg));
      }
      var d := DownloadWithYtdlp(c.chat, url.value, p.format, p.quality, files, w);
      run := Run([answered] + d.effects, d.files, d.raised);
      forall k | 0 <= k < |run.effects| && run.effects[k].AdapterCall?
        ensures Valid() ==> StartsWith(run.effects[k].url, "http")
      {
        AdapterSeesOnlyStoredLinks(userLastUrl, c, files, w, k);
      }
    }

    /** telebot's handling of one update: the first handler whose filter accepts it runs. */
    method Handle(e: Event, files: set<Path>, w: World) returns (run: Run)
      modifies this
      ensures userLastUrl == SessionsAfter(old(userLastUrl), e)
      ensures run == EventRun(old(userLastUrl), files, e, w)
      ensures old(Valid()) ==> Valid()
    {
      match e {
        case TextMessage(m) =>
          if IsStartCommand(m.text) {
            run := StartHandler(m, files, w);
          } else if IsHowToUse(m.text) {
            run := HowToUse(m, files, w);
          } else if IsAboutBot(m.text) {
            run := AboutBot(m, files, w);
          } else if IsUrlText(m.text) {
            run := UrlHandler(m, files, w);
          } else {
            run := Run([], files, None);
          }
        case CallbackQuery(c) =>
          if IsQualityCallback(c.data) {
            run := QualityCallback(c, files, w);
          } else {
            run := Run([], files, None);
          }
      }
    }
  }

  // ---------- the store ----------

  /**
   * Only a URL message writes the store: it sets the sender's entry to the
   * stripped text and leaves every other entry as it was; every other event,
   * the three fixed triggers and every callback included, leaves the store unchanged.
   */
  lemma OnlyUrlMessagesWrite(s: Sessions, e: Event)
    ensures e.TextMessage? && IsUrlText(e.message.text) ==>
      && Lookup(SessionsAfter(s, e), e.message.sender) == Some(Strip(e.message.text))
      && forall v :: v != e.message.sender ==> Lookup(SessionsAfter(s, e), v) == Lookup(s, v)
    ensures !(e.TextMessage? && IsUrlText(e.message.text)) ==> SessionsAfter(s, e) == s
  {
  }

  /** Storing the strip of a text the URL filter accepts keeps every stored URL a link. */
  lemma StoringLinkKeepsLinks(s: Sessions, u: UserId, text: string)
    requires StoredUrlsAreLinks(s) && IsUrlText(text)
    ensures StoredUrlsAreLinks(s[u := Strip(text)])
  {
    StripKeepsPrefix(text, "http");
    var t := s[u := Strip(text)];
    forall v | v in t ensures StartsWith(t[v], "http") {
      if v != u {
        assert t[v] == s[v];
      }
    }
  }

  /** Whatever the event, every stored URL still begins with "http" afterwards. */
  lemma StoreKeepsOnlyLinks(s: Sessions, e: Event)
    requires StoredUrlsAreLinks(s)
    ensures StoredUrlsAreLinks(SessionsAfter(s, e))
  {
    if e.TextMessage? && Route(e.message.text) == Some(UrlRoute) {
      StoringLinkKeepsLinks(s, e.message.sender, e.message.text);
    }
  }

  /** The store after a sequence of events, oldest first. */
  function Replay(s: Sessions, events: seq<Event>): Sessions
  {
    if events == [] then s else SessionsAfter(Replay(s, events[..|events| - 1]), events[|events| - 1])
  }

  /** The stripped text of the last URL message `u` sent in `events`, if any. */
  function LastLinkFrom(events: seq<Event>, u: UserId): Option<string>
  {
    if events == [] then None
    else
      var e := events[|events| - 1];
      if e.TextMessage? && e.message.sender == u && IsUrlText(e.message.text) then Some(Strip(e.message.text))
      else LastLinkFrom(events[..|events| - 1], u)
  }

  /** Last write wins: after any sequence of events, a user's entry is their latest link, or what it was before if they sent none. */
  lemma {:induction false} LastWriteWins(s: Sessions, events: seq<Event>, u: UserId)
    ensures Lookup(Replay(s, events), u) == if LastLinkFrom(events, u).Some? then LastLinkFrom(events, u) else Lookup(s, u)
  {
    if events != [] {
      var prefix := events[..|events| - 1];
      LastWriteWins(s, prefix, u);
      OnlyUrlMessagesWrite(Replay(s, prefix), events[|events| - 1]);
    }
  }

  /** The invariant holds of the store along any sequence of events that starts from a valid store. */
  lemma {:induction false} ReplayKeepsOnlyLinks(s: Sessions, events: seq<Event>)
    requires StoredUrlsAreLinks(s)
    ensures StoredUrlsAreLinks(Replay(s, events))
  {
    if events != [] {
      ReplayKeepsOnlyLinks(s, events[..|events| - 1]);
      StoreKeepsOnlyLinks(Replay(s, events[..|events| - 1]), events[|events| - 1]);
    }
  }

  // ---------- the quality callback ----------

  /**
   * A press from a user with no stored link (or an empty one) answers the query
   * with the "No URL found" notice and does nothing else: no status message, no
   * download, no file removed. That notice is given for no other reason.
   */
  lemma MissingLinkOnlyAnswers(s: Sessions, c: Call, files: set<Path>, w: World)
    ensures var r := QualityRun(s, c, files, w);
      && (NoUrl(Lookup(s, c.sender)) ==> r.effects == [AnswerCallback(c.callId, NoUrlText)] && r.files == files)
      && (AnswerCallback(c.callId, NoUrlText) in r.effects ==> NoUrl(Lookup(s, c.sender)))
  {
    var r := QualityRun(s, c, files, w);
    if !NoUrl(Lookup(s, c.sender)) {
      var q := PresetFor(c.data).quality;
      assert DownloadingAnswer(q)[0] != NoUrlText[0];
      forall k | 1 <= k < |r.effects| ensures !r.effects[k].AnswerCallback? {
        var d := DownloadRun(c.chat, Lookup(s, c.sender).value, PresetFor(c.data).format, q, files, w);
        assert r.effects[k] == d.effects[k - 1];
      }
    }
  }

  /**
   * With a stored link, the query is answered "Downloading <quality>…" first,
   * then the status message is sent, then yt_dlp is called once, on the stored
   * link with the token's selector. Unless removing the output file raises, it
   * is gone afterwards and every other path is as the download left it.
   */
  lemma LinkedPressDownloads(s: Sessions, c: Call, files: set<Path>, w: World)
    requires !NoUrl(Lookup(s, c.sender))
    ensures var r := QualityRun(s, c, files, w);
      var p := PresetFor(c.data);
      && r.effects[0] == AnswerCallback(c.callId, DownloadingAnswer(p.quality))
      && (w.answer.Ok? ==> r.effects[1] == SendText(c.chat, StatusText(p.quality), NoMarkup))
      && (w.answer.Ok? && w.status.Sent? ==>
            && r.effects[2] == AdapterCall(s[c.sender], OptionsFor(p.format))
            && (w.remove.Ok? || !w.fileAfterAdapter ==>
                  VideoPath !in r.files && r.files == AfterAdapter(files, w) - {VideoPath}))
  {
    var p := PresetFor(c.data);
    if w.answer.Ok? {
      AnnounceThenFetch(c.chat, s[c.sender], p.format, p.quality, files, w);
      CleanupAlwaysRuns(c.chat, s[c.sender], p.format, p.quality, files, w);
    }
  }

  /**
   * yt_dlp is only ever called on the pressing user's stored link (which begins
   * with "http" while the store's invariant holds), with one of the table's three
   * selectors, the fixed output path, no playlists and mp4 output.
   */
  lemma AdapterSeesOnlyStoredLinks(s: Sessions, c: Call, files: set<Path>, w: World, k: nat)
    requires k < |QualityRun(s, c, files, w).effects| && QualityRun(s, c, files, w).effects[k].AdapterCall?
    ensures var a := QualityRun(s, c, files, w).effects[k];
      && Lookup(s, c.sender) == Some(a.url)
      && a.opts.format in {BestFormat, Format720, Format1080}
      && a.opts == YdlOptions(a.opts.format, "video.mp4", true, "mp4")
      && (StoredUrlsAreLinks(s) ==> StartsWith(a.url, "http"))
  {
    var p := PresetFor(c.data);
    PresetFormatsAreTheTable(c.data);
    AnnounceThenFetch(c.chat, s[c.sender], p.format, p.quality, files, w);
  }

  /** A user who never sent a link in this process's lifetime gets the "No URL found" notice and no download, whatever they press. */
  lemma NeverLinkedNeverDownloads(events: seq<Event>, c: Call, files: set<Path>, w: World)
    requires LastLinkFrom(events, c.sender).None?
    ensures var r := QualityRun(Replay(map[], events), c, files, w);
      && r.effects == [AnswerCallback(c.callId, NoUrlText)]
      && r.files == files
  {
    LastWriteWins(map[], events, c.sender);
  }

  // ---------- one event ----------

  /**
   * A press that does not call yt_dlp leaves the filesystem as it was. One that
   * does changes, apart from the output file, only as the download did (the
   * paths it created and deleted), and leaves no output file unless removing it raised.
   */
  lemma PressChangesOnlyDownloadFiles(s: Sessions, c: Call, files: set<Path>, w: World)
    ensures var r := QualityRun(s, c, files, w);
      var called := exists k :: 0 <= k < |r.effects| && r.effects[k].AdapterCall?;
      && (!called ==> r.files == files)
      && (called ==> r.files - {VideoPath} == AfterAdapter(files, w) - {VideoPath})
      && (called && (w.remove.Ok? || !w.fileAfterAdapter) ==> VideoPath !in r.files)
  {
    var r := QualityRun(s, c, files, w);
    if !NoUrl(Lookup(s, c.sender)) && w.answer.Ok? {
      var p := PresetFor(c.data);
      var d := DownloadRun(c.chat, s[c.sender], p.format, p.quality, files, w);
      AnnounceThenFetch(c.chat, s[c.sender], p.format, p.quality, files, w);
      CleanupAlwaysRuns(c.chat, s[c.sender], p.format, p.quality, files, w);
      assert r.effects == [r.effects[0]] + d.effects && r.files == d.files;
      if w.status.Sent? {
        assert r.effects[2].AdapterCall?;
      } else {
        assert r.effects == [r.effects[0], d.effects[0]];
      }
    }
  }

  /**
   * The same for any event: a text message touches no file, and a press changes
   * files only through its download.
   */
  lemma EventChangesOnlyDownloadFiles(s: Sessions, files: set<Path>, e: Event, w: World)
    ensures var r := EventRun(s, files, e, w);
      var called := exists k :: 0 <= k < |r.effects| && r.effects[k].AdapterCall?;
      && (!called ==> r.files == files)
      && (called ==> r.files - {VideoPath} == AfterAdapter(files, w) - {VideoPath})
      && (called && (w.remove.Ok? || !w.fileAfterAdapter) ==> VideoPath !in r.files)
  {
    if e.CallbackQuery? && IsQualityCallback(e.call.data) {
      PressChangesOnlyDownloadFiles(s, e.call, files, w);
    } else {
      var r := EventRun(s, files, e, w);
      assert forall k :: 0 <= k < |r.effects| ==> r.effects[k].SendText?;
    }
  }

  // ---------- scenarios ----------

  /** A link with no surrounding whitespace, as a user pastes it. */
  predicate IsPastedLink(url: string)
  {
    StartsWith(url, "http") && !IsSpace(url[|url| - 1])
  }

  /** The user sends a link, then presses 720p: the store holds the link, and the press starts the 720p download of it. */
  lemma LinkThen720(user: UserId, chat: ChatId, url: string, w: World)
    requires IsPastedLink(url)
    ensures var s := SessionsAfter(map[], TextMessage(Message(user, chat, url)));
      && s == map[user := url]
      && EventRun(s, {}, CallbackQuery(Call("cb", user, chat, "q_720")), w)
         == QualityRun(s, Call("cb", user, chat, "q_720"), {}, w)
  {
    assert IsUrlText(url);
    StripOfTrimmed(url);
    assert IsQualityCallback("q_720") by { assert "q_720"[..2] == "q_"; }
  }

  /**
   * Link, then 720p, everything succeeding: the link gets the quality keyboard,
   * the video is sent, the status becomes the success notice, and the file is removed.
   */
  lemma ScenarioDelivered(user: UserId, chat: ChatId, url: string, w: World)
    requires IsPastedLink(url)
    requires w.reply.Ok? && w.answer.Ok? && w.status == Sent(7) && Delivered(w) && w.remove.Ok?
    ensures var link := EventRun(map[], {}, TextMessage(Message(user, chat, url)), w);
      link.effects == [SendText(chat, LinkReceivedText, QualityKeyboard)] && link.raised == None
    ensures var s := SessionsAfter(map[], TextMessage(Message(user, chat, url)));
      var r := EventRun(s, {}, CallbackQuery(Call("cb", user, chat, "q_720")), w);
      && r.effects == [
           AnswerCallback("cb", DownloadingAnswer("720p")),
           SendText(chat, StatusText("720p"), NoMarkup),
           AdapterCall(url, OptionsFor(Format720)),
           SendVideo(chat, VideoPath),
           EditStatus(chat, 7, DoneText),
           Remove(VideoPath)]
      && r.files == w.leftovers - {VideoPath} && r.raised == None
  {
    assert IsUrlText(url);
    LinkThen720(user, chat, url, w);
  }

  /**
   * The same, but yt_dlp raises an error mentioning "unsupported site": no video
   * is sent, the status becomes an error notice that mentions it too, and no file is left.
   */
  lemma ScenarioUnsupportedSite(user: UserId, chat: ChatId, url: string, w: World)
    requires IsPastedLink(url)
    requires w.answer.Ok? && w.status == Sent(7) && w.editError.Ok? && w.remove.Ok?
    requires w.adapter.Fail? && Contains(w.adapter.msg, "unsupported site")
    ensures var s := SessionsAfter(map[], TextMessage(Message(user, chat, url)));
      var r := EventRun(s, {}, CallbackQuery(Call("cb", user, chat, "q_720")), w);
      && SendVideo(chat, VideoPath) !in r.effects
      && EditStatus(chat, 7, ErrorText(w.adapter.msg)) in r.effects
      && Contains(ErrorText(w.adapter.msg), "unsupported site")
      && VideoPath !in r.files && r.raised == None
  {
    LinkThen720(user, chat, url, w);
    var d := DownloadRun(chat, url, Format720, "720p", {}, w);
    VideoSentOnlyAfterDownload(chat, url, Format720, "720p", {}, w);
    FailuresAreReported(chat, url, Format720, "720p", {}, w);
    CleanupAlwaysRuns(chat, url, Format720, "720p", {}, w);
    ContainsTransitive(ErrorText(w.adapter.msg), w.adapter.msg, "unsupported site");
  }

  /** The about button pressed before any link: the about text is sent and the store stays empty. */
  lemma ScenarioAboutFirst(user: UserId, chat: ChatId, w: World)
    ensures var e := TextMessage(Message(user, chat, AboutBotLabel));
      && SessionsAfter(map[], e) == map[]
      && EventRun(map[], {}, e, w).effects == [SendText(chat, AboutText, NoMarkup)]
  {
  }
}
