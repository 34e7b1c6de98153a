/**
 * The pure parts of the bot: the four message filters and the order telebot
 * tries them in, the callback filter, the token-to-preset table, the keyboards
 * and the texts the handlers send.
 */
module Handlers {
  import opened Wrappers
  import opened PyStr
  import opened Telegram

  // ---------- labels, keyboards and texts ----------

  /** The two reply-keyboard labels, matched exactly by the help and about filters. */
  const HowToUseLabel: string := "\U{1F4E5} How to use"
  const AboutBotLabel: string := "\U{2139}\U{FE0F} About bot"

  /** The main menu sent with the greeting: one row holding the two labels. */
  const MainMenu: Markup := ReplyKeyboard([[HowToUseLabel, AboutBotLabel]])

  /** The three quality buttons sent when a link is received. */
  const QualityButtons: seq<Button> :=
    [Button("\U{2B50} Best", "q_best"), Button("720p", "q_720"), Button("1080p", "q_1080")]
  const QualityKeyboard: Markup := InlineKeyboard([QualityButtons])

  /** Greeting, help and about texts: opaque to every property below. */
  const WelcomeText: string :=
    "\U{1F44B} *Welcome to GrabTrio Video Downloader!*\n\n"
    + "\U{1F680} I can instantly download videos from:\n"
    + "\U{2022} YouTube (Videos, Shorts)\n"
    + "\U{2022} Instagram (Reels, Posts)\n"
    + "\U{2022} Facebook (Reels, Videos)\n\n"
    + "Just send any video link and choose the quality.\n\n"
    + "\U{1F468}\U{200D}\U{1F4BB} *Developer*: Sk Naimuddin"
  const HelpText: string :=
    "\U{1F4E5} *How to use GrabTrio Bot*\n\n"
    + "1\U{FE0F}\U{20E3} Copy any public video link.\n"
    + "2\U{FE0F}\U{20E3} Paste the link here.\n"
    + "3\U{FE0F}\U{20E3} Choose Best / 720p / 1080p.\n"
    + "4\U{FE0F}\U{20E3} Wait for download.\n\n"
    + "\U{26A0} 1080p may exceed Telegram limits."
  const AboutText: string :=
    "\U{2139}\U{FE0F} *GrabTrio Bot*\n"
    + "Created by *Sk Naimuddin*.\n"
    + "Powered by Python & yt-dlp."
  const LinkReceivedText: string := "\U{1F517} Link received!\nSelect your preferred quality:"
  const NoUrlText: string := "No URL found. Send the link again."
  const DoneText: string := "\U{2705} Download complete!"

  function DownloadingAnswer(quality: string): string { "Downloading " + quality + "\U{2026}" }
  function StatusText(quality: string): string { "\U{2B07}\U{FE0F} Downloading video (" + quality + ")\U{2026}" }

  /** The error notice: the exception's text between backquotes. */
  function ErrorText(e: string): (r: string)
    ensures Contains(r, e)
    ensures r != DoneText
  {
    var head := "\U{274C} Download error:\n`";
    var r := head + e + "`";
    assert r[|head|..|head| + |e|] == e;
    assert r[0] != DoneText[0];
    r
  }

  // ---------- message filters ----------

  /** The first word of a text: everything before its first whitespace character. */
  function FirstWord(s: string): (r: string)
    ensures |r| <= |s| && r == s[..|r|]
    ensures s != [] && !IsSpace(s[0]) ==> r != []
    ensures forall k :: 0 <= k < |r| ==> !IsSpace(r[k])
    ensures |r| < |s| ==> IsSpace(s[|r|])
  {
    if s == [] || IsSpace(s[0]) then [] else [s[0]] + FirstWord(s[1..])
  }

  /** A command word without its `@bot` suffix: everything before the first `@`. */
  function BeforeAt(s: string): (r: string)
    ensures |r| <= |s| && r == s[..|r|]
    ensures s != [] && s[0] != '@' ==> r != []
    ensures '@' !in r
    ensures |r| < |s| ==> s[|r|] == '@'
  {
    if s == [] || s[0] == '@' then [] else [s[0]] + BeforeAt(s[1..])
  }

  /**
   * telebot's `commands=["start"]` filter: the text is a command (it starts with
   * a slash) whose first word, cut at an `@bot` suffix and without the slash, is
   * "start". That is: the text begins with "/start", followed by nothing, by
   * whitespace or by `@`.
   */
  predicate IsStartCommand(text: string): (b: bool)
    ensures b <==> StartsWith(text, "/start") && (|text| == 6 || IsSpace(text[6]) || text[6] == '@')
  {
    StartCommandWord(text);
    StartsWith(text, "/") && BeforeAt(FirstWord(text))[1..] == "start"
  }

  /** The command word of a text that starts with a slash begins with the slash; it is "/start" exactly when the text starts with that word alone. */
  lemma StartCommandWord(text: string)
    ensures StartsWith(text, "/") ==> |BeforeAt(FirstWord(text))| >= 1
    ensures StartsWith(text, "/") && BeforeAt(FirstWord(text))[1..] == "start" <==>
      StartsWith(text, "/start") && (|text| == 6 || IsSpace(text[6]) || text[6] == '@')
  {
    if StartsWith(text, "/") {
      assert text[0] == '/' && !IsSpace('/');
      var cmd := BeforeAt(FirstWord(text));
      if cmd[1..] == "start" {
        assert cmd == "/start";
        CommandWordIs(text);
      }
    }
    if StartsWith(text, "/start") && (|text| == 6 || IsSpace(text[6]) || text[6] == '@') {
      StartIsOneWord();
      CommandWordOf(text, "/start");
    }
  }

  /**
   * A text that starts with a word free of whitespace and `@`, followed by
   * nothing, whitespace or `@`, has that word as its command word. The
   * contracts of `FirstWord` and `BeforeAt` already imply this; the induction
   * below, one character at a time, only keeps the proof small; automatic
   * induction is switched off because it makes the proof larger again.
   */
  lemma {:induction false} CommandWordOf(text: string, p: string)
    requires StartsWith(text, p) && (|text| == |p| || IsSpace(text[|p|]) || text[|p|] == '@')
    requires forall k :: 0 <= k < |p| ==> !IsSpace(p[k]) && p[k] != '@'
    ensures BeforeAt(FirstWord(text)) == p
  {
    if p == [] {
      if text != [] && !IsSpace(text[0]) {
        assert FirstWord(text)[0] == '@';
      }
    } else {
      assert text[0] == p[0];
      assert text[1..][..|p| - 1] == p[1..];
      CommandWordOf(text[1..], p[1..]);
      var rest := FirstWord(text[1..]);
      assert FirstWord(text) == [text[0]] + rest;
      assert ([text[0]] + rest)[1..] == rest;
    }
  }

  /** The command word of a text is a prefix of it, followed by nothing, whitespace or `@`. */
  lemma CommandWordIs(text: string)
    ensures var p := BeforeAt(FirstWord(text));
      StartsWith(text, p) && (|text| == |p| || IsSpace(text[|p|]) || text[|p|] == '@')
  {
    var fw := FirstWord(text);
    var cmd := BeforeAt(fw);
    assert text[..|cmd|] == fw[..|cmd|] == cmd;
    if |text| > |cmd| && |fw| > |cmd| {
      assert text[|cmd|] == fw[|cmd|] == '@';
    }
  }

  /** "/start" holds neither whitespace nor `@`. */
  lemma StartIsOneWord()
    ensures forall k :: 0 <= k < |"/start"| ==> !IsSpace("/start"[k]) && "/start"[k] != '@'
  {
    assert "/start" == ['/', 's', 't', 'a', 'r', 't'];
  }

  /** The help filter: exactly the main menu's help label, which is neither a command nor a link. */
  predicate IsHowToUse(text: string): (b: bool)
    ensures b ==> !StartsWith(text, "/") && !StartsWith(text, "http")
  {
    assert HowToUseLabel[0] == '\U{1F4E5}';
    text == HowToUseLabel
  }

  /** The about filter: exactly the main menu's about label, which is neither a command nor a link. */
  predicate IsAboutBot(text: string): (b: bool)
    ensures b ==> !StartsWith(text, "/") && !StartsWith(text, "http")
  {
    assert AboutBotLabel[0] == '\U{2139}';
    text == AboutBotLabel
  }

  /** The URL filter: a non-empty text that starts with "http". */
  predicate IsUrlText(text: string) { text != "" && StartsWith(text, "http") }

  /** The callback filter: the button's token starts with "q_"; every token of the preset table passes it. */
  predicate IsQualityCallback(data: string): (b: bool)
    ensures data in {"q_best", "q_720", "q_1080"} ==> b
  {
    StartsWith(data, "q_")
  }

  // ---------- dispatch ----------

  datatype MessageHandler = StartRoute | HelpRoute | AboutRoute | UrlRoute

  predicate Matches(h: MessageHandler, text: string)
  {
    match h
    case StartRoute => IsStartCommand(text)
    case HelpRoute => IsHowToUse(text)
    case AboutRoute => IsAboutBot(text)
    case UrlRoute => IsUrlText(text)
  }

  /** The order the handlers are registered in, which is the order telebot tries them in. */
  const Registered: seq<MessageHandler> := [StartRoute, HelpRoute, AboutRoute, UrlRoute]

  /** telebot's dispatch: the first handler in `order` whose filter accepts the text, if any. */
  function FirstMatch(order: seq<MessageHandler>, text: string): (r: Option<MessageHandler>)
    ensures r.Some? ==> r.value in order && Matches(r.value, text)
    ensures r.None? ==> forall h :: h in order ==> !Matches(h, text)
    ensures r.Some? ==> exists i :: 0 <= i < |order| && order[i] == r.value && forall j :: 0 <= j < i ==> !Matches(order[j], text)
  {
    if order == [] then None
    else if Matches(order[0], text) then Some(order[0])
    else
      var r := FirstMatch(order[1..], text);
      if r.Some? then
        var i :| 0 <= i < |order| - 1 && order[1..][i] == r.value && forall j :: 0 <= j < i ==> !Matches(order[1..][j], text);
        assert order[i + 1] == r.value && forall j :: 0 <= j < i + 1 ==> !Matches(order[j], text);
        r
      else r
  }

  /** No text is accepted by two of the four filters. */
  lemma FiltersExclusive(text: string, h1: MessageHandler, h2: MessageHandler)
    requires Matches(h1, text) && Matches(h2, text)
    ensures h1 == h2
  {
    // the filters disagree on the first character: '/', U+1F4E5, U+2139 and 'h'
    assert IsStartCommand(text) ==> text[0] == '/';
    assert IsUrlText(text) ==> text[0] == 'h';
    assert IsHowToUse(text) ==> text[0] == '\U{1F4E5}';
    assert IsAboutBot(text) ==> text[0] == '\U{2139}';
  }

  /** In particular, none of the three fixed triggers starts with "http". */
  lemma TriggersAreNotUrls(text: string)
    requires IsStartCommand(text) || IsHowToUse(text) || IsAboutBot(text)
    ensures !StartsWith(text, "http")
  {
    if IsStartCommand(text) {
      assert text[0] == '/';
    } else if IsHowToUse(text) {
      assert text[0] == '\U{1F4E5}';
    } else {
      assert text[0] == '\U{2139}';
    }
  }

  /**
   * Which handler telebot runs for a text message: the one handler whose
   * filter accepts it, or none at all (there is no fallback handler).
   */
  function Route(text: string): (r: Option<MessageHandler>)
    ensures r == Some(StartRoute) <==> IsStartCommand(text)
    ensures r == Some(HelpRoute) <==> IsHowToUse(text)
    ensures r == Some(AboutRoute) <==> IsAboutBot(text)
    ensures r == Some(UrlRoute) <==> IsUrlText(text)
  {
    var r := FirstMatch(Registered, text);
    assert forall h :: Matches(h, text) ==> r == Some(h) by {
      forall h | Matches(h, text) ensures r == Some(h) {
        assert h in Registered;
        FiltersExclusive(text, r.value, h);
      }
    }
    r
  }

  /** Because the filters are exclusive, any registration order of the four handlers dispatches as the source's order does. */
  lemma AnyOrderRoutesAlike(order: seq<MessageHandler>, text: string)
    requires forall h: MessageHandler :: h in order
    ensures FirstMatch(order, text) == Route(text)
  {
  }

  /** The two main-menu buttons send texts that reach the help and the about handler. */
  lemma MainMenuReachesItsHandlers()
    ensures forall t :: t in MainMenu.labels[0] ==> Route(t).Some? && Route(t) != Some(UrlRoute)
    ensures Route(MainMenu.labels[0][0]) == Some(HelpRoute)
    ensures Route(MainMenu.labels[0][1]) == Some(AboutRoute)
  {
    assert MainMenu.labels[0] == [HowToUseLabel, AboutBotLabel];
  }

  // ---------- quality presets ----------

  /** A yt_dlp format selector and the label shown to the user. */
  datatype Preset = Preset(format: string, quality: string)

  const BestFormat: string := "bv*+ba/b"
  const Format720: string := "bv*[height<=720]+ba/b[height<=720]"
  const Format1080: string := "bv*[height<=1080]+ba/b[height<=1080]"

  /** The token-to-preset table: "q_best", "q_720", and any other token, which gets 1080p. */
  function PresetFor(token: string): (p: Preset)
    ensures p == Preset(BestFormat, "Best") <==> token == "q_best"
    ensures p == Preset(Format720, "720p") <==> token == "q_720"
    ensures p == Preset(Format1080, "1080p") <==> token != "q_best" && token != "q_720"
  {
    if token == "q_best" then Preset(BestFormat, "Best")
    else if token == "q_720" then Preset(Format720, "720p")
    else Preset(Format1080, "1080p")
  }

  /** Only the three selectors of the table ever reach yt_dlp. */
  lemma PresetFormatsAreTheTable(token: string)
    ensures PresetFor(token).format in {BestFormat, Format720, Format1080}
    ensures PresetFor(token).quality in {"Best", "720p", "1080p"}
  {
  }

  /**
   * Every quality button sends a token the callback filter accepts; its preset's
   * label ends its caption, and the three buttons select three different formats.
   */
  lemma QualityButtonsSelectTheirPresets()
    ensures forall b :: b in QualityButtons ==> IsQualityCallback(b.callbackData)
    ensures forall i :: 0 <= i < |QualityButtons| ==>
      var b := QualityButtons[i];
      var l := PresetFor(b.callbackData).quality;
      |l| <= |b.caption| && b.caption[|b.caption| - |l|..] == l
    ensures forall i, j :: 0 <= i < j < |QualityButtons| ==>
      PresetFor(QualityButtons[i].callbackData).format != PresetFor(QualityButtons[j].callbackData).format
  {
    var b := QualityButtons;
    assert PresetFor(b[0].callbackData) == Preset(BestFormat, "Best");
    assert PresetFor(b[1].callbackData) == Preset(Format720, "720p");
    assert PresetFor(b[2].callbackData) == Preset(Format1080, "1080p");
    assert b[0].callbackData[..2] == b[1].callbackData[..2] == b[2].callbackData[..2] == "q_";
    assert b[0].caption[|b[0].caption| - 4..] == "Best";
  }
}
