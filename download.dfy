/**
 * `download_with_ytdlp`: announce, download through yt_dlp, send the file,
 * report success or the error, and always remove the output file.
 */
module Download {
  import opened Wrappers
  import opened Telegram
  import opened Handlers

  /** The one fixed output path every download uses. */
  const VideoPath: Path := "video.mp4"

  /** The text of the FileNotFoundError raised when the output file is opened but is not there. */
  const FileNotFoundText: string := "[Errno 2] No such file or directory: 'video.mp4'"

  /** The options handed to yt_dlp for a format selector. */
  function OptionsFor(fmt: string): YdlOptions
  {
    YdlOptions(fmt, VideoPath, true, "mp4")
  }

  /** The download, the open, the send and the success edit all went through. */
  predicate Delivered(w: World)
  {
    w.adapter.Ok? && w.fileAfterAdapter && w.sendVideo.Ok? && w.editDone.Ok?
  }

  /**
   * The filesystem once yt_dlp returns or raises: the output file exactly when
   * it was left there; any other path exactly when the download created it, or
   * when it was there before and the download did not delete it.
   */
  function AfterAdapter(files: set<Path>, w: World): (disk: set<Path>)
    ensures VideoPath in disk <==> w.fileAfterAdapter
    ensures forall p :: p != VideoPath ==> (p in disk <==> p in w.leftovers || (p in files && p !in w.consumed))
  {
    var others := ((files - w.consumed) + w.leftovers) - {VideoPath};
    if w.fileAfterAdapter then others + {VideoPath} else others
  }

  /**
   * The try block: the calls it makes, and the exception that left it, if one
   * did. It starts with the one yt_dlp call and runs to its end exactly when
   * the video is delivered.
   */
  function TryBlock(chat: ChatId, url: string, fmt: string, statusId: int, w: World): (r: (seq<Effect>, Option<string>))
    ensures r.0 != [] && r.0[0] == AdapterCall(url, OptionsFor(fmt))
    ensures r.1.None? <==> Delivered(w)
  {
    var fetched := [AdapterCall(url, OptionsFor(fmt))];
    if w.adapter.Fail? then (fetched, Some(w.adapter.msg))
    else if !w.fileAfterAdapter then (fetched, Some(FileNotFoundText))
    else
      var sent := fetched + [SendVideo(chat, VideoPath)];
      if w.sendVideo.Fail? then (sent, Some(w.sendVideo.msg))
      else
        var done := sent + [EditStatus(chat, statusId, DoneText)];
        if w.editDone.Fail? then (done, Some(w.editDone.msg)) else (done, None)
  }

  /**
   * The whole flow. A failing status send raises before the try block. Otherwise
   * the try block runs; an exception from it is reported by editing the status
   * (and that edit may itself raise); the finally block removes the output file
   * if it is there. A removal that raises leaves the file in place, and its
   * exception replaces whatever was escaping.
   */
  function DownloadRun(chat: ChatId, url: string, fmt: string, quality: string, files: set<Path>, w: World): (r: Run)
    ensures forall k :: 0 <= k < |r.effects| && r.effects[k].EditStatus? ==>
      r.effects[k].chat == chat && w.status == Sent(r.effects[k].messageId)
    ensures forall k :: 0 <= k < |r.effects| && r.effects[k].SendVideo? ==> r.effects[k] == SendVideo(chat, VideoPath)
  {
    var announce := SendText(chat, StatusText(quality), NoMarkup);
    match w.status
    case SendFailed(m) => Run([announce], files, Some(m))
    case Sent(id) =>
      var (tried, failure) := TryBlock(chat, url, fmt, id, w);
      var handled := if failure.Some? then [EditStatus(chat, id, ErrorText(failure.value))] else [];
      var raised := if failure.Some? && w.editError.Fail? then Some(w.editError.msg) else None;
      var onDisk := AfterAdapter(files, w);
      if VideoPath !in onDisk then Run([announce] + tried + handled, onDisk, raised)
      else if w.remove.Fail? then Run([announce] + tried + handled + [Remove(VideoPath)], onDisk, Some(w.remove.msg))
      else Run([announce] + tried + handled + [Remove(VideoPath)], onDisk - {VideoPath}, raised)
  }

  /** `download_with_ytdlp`, step by step, with the try/except/finally written out as a failure variable. */
  method DownloadWithYtdlp(chat: ChatId, url: string, fmt: string, quality: string, files: set<Path>, w: World)
    returns (run: Run)
    ensures run == DownloadRun(chat, url, fmt, quality, files, w)
  {
    var effects := [SendText(chat, StatusText(quality), NoMarkup)];
    if w.status.SendFailed? {
      return Run(effects, files, Some(w.status.msg));
    }
    var statusId := w.status.messageId;
    var disk := files;
    var failure: Option<string> := None;
    // try:
    effects := effects + [AdapterCall(url, OptionsFor(fmt))];
    disk := ((disk - w.consumed) + w.leftovers) - {VideoPath};
    if w.fileAfterAdapter {
      disk := disk + {VideoPath};
    }
    if w.adapter.Fail? {
      failure := Some(w.adapter.msg);
    } else if VideoPath !in disk {
      failure := Some(FileNotFoundText);
    } else {
      effects := effects + [SendVideo(chat, VideoPath)];
      if w.sendVideo.Fail? {
        failure := Some(w.sendVideo.msg);
      } else {
        effects := effects + [EditStatus(chat, statusId, DoneText)];
        if w.editDone.Fail? {
          failure := Some(w.editDone.msg);
        }
      }
    }
    // except Exception as e:
    var raised: Option<string> := None;
    if failure.Some? {
      effects := effects + [EditStatus(chat, statusId, ErrorText(failure.value))];
      if w.editError.Fail? {
        raised := Some(w.editError.msg);
      }
    }
    // finally:
    if VideoPath in disk {
      effects := effects + [Remove(VideoPath)];
      if w.remove.Fail? {
        raised := Some(w.remove.msg);
      } else {
        disk := disk - {VideoPath};
      }
    }
    run := Run(effects, disk, raised);
  }

  // ---------- properties of the flow ----------

  /**
   * Cleanup: once the try block has been entered, the flow's last effect removes
   * the output file exactly when it was on disk, whichever branch was taken.
   * Unless that removal raises, the output path is gone afterwards; apart from
   * it, the paths afterwards are those the download left (`AfterAdapter`). A
   * removal that raises leaves the file and its exception escapes.
   */
  lemma CleanupAlwaysRuns(chat: ChatId, url: string, fmt: string, quality: string, files: set<Path>, w: World)
    ensures var r := DownloadRun(chat, url, fmt, quality, files, w);
      var left := AfterAdapter(files, w) - {VideoPath};
      && (w.status.Sent? ==> r.files - {VideoPath} == left)
      && (w.status.Sent? ==> (r.effects[|r.effects| - 1] == Remove(VideoPath) <==> w.fileAfterAdapter))
      && (w.status.Sent? && (w.remove.Ok? || !w.fileAfterAdapter) ==> VideoPath !in r.files && r.files == left)
      && (w.status.Sent? && w.fileAfterAdapter && w.remove.Fail? ==> VideoPath in r.files && r.raised == Some(w.remove.msg))
      && (w.status.SendFailed? ==> r.files == files)
  {
    var r := DownloadRun(chat, url, fmt, quality, files, w);
    if w.status.Sent? && !w.fileAfterAdapter {
      var last := r.effects[|r.effects| - 1];
      assert last.AdapterCall? || last.SendVideo? || last.EditStatus?;
    }
  }

  /**
   * Order of the first calls: the status message comes first; if it cannot be
   * sent nothing else happens, otherwise the second call is the one yt_dlp call,
   * with the table's selector, the fixed output path, no playlists and mp4 output.
   */
  lemma AnnounceThenFetch(chat: ChatId, url: string, fmt: string, quality: string, files: set<Path>, w: World)
    ensures var r := DownloadRun(chat, url, fmt, quality, files, w);
      && |r.effects| >= 1 && r.effects[0] == SendText(chat, StatusText(quality), NoMarkup)
      && (w.status.SendFailed? ==> |r.effects| == 1 && r.raised == Some(w.status.msg))
      && (w.status.Sent? ==>
            && |r.effects| >= 2
            && r.effects[1] == AdapterCall(url, YdlOptions(fmt, "video.mp4", true, "mp4"))
            && forall k :: 0 <= k < |r.effects| && k != 1 ==> !r.effects[k].AdapterCall?)
  {
  }

  /** The video is sent only after the download succeeded and its file could be opened, and right after the download. */
  lemma VideoSentOnlyAfterDownload(chat: ChatId, url: string, fmt: string, quality: string, files: set<Path>, w: World)
    ensures var r := DownloadRun(chat, url, fmt, quality, files, w);
      && (SendVideo(chat, VideoPath) in r.effects <==> w.status.Sent? && w.adapter.Ok? && w.fileAfterAdapter)
      && (SendVideo(chat, VideoPath) in r.effects ==> r.effects[2] == SendVideo(chat, VideoPath))
  {
  }

  /** The success notice is attempted only once the video has been sent. */
  lemma DoneOnlyAfterVideo(chat: ChatId, url: string, fmt: string, quality: string, files: set<Path>, w: World, id: int)
    ensures var r := DownloadRun(chat, url, fmt, quality, files, w);
      EditStatus(chat, id, DoneText) in r.effects <==>
        w.status == Sent(id) && w.adapter.Ok? && w.fileAfterAdapter && w.sendVideo.Ok?
  {
    var r := DownloadRun(chat, url, fmt, quality, files, w);
    if w.status.Sent? {
      var (tried, failure) := TryBlock(chat, url, fmt, w.status.messageId, w);
      assert EditStatus(chat, id, DoneText) in r.effects <==> EditStatus(chat, id, DoneText) in tried;
    }
  }

  /**
   * Errors are reported: when anything in the try block raises, the status is
   * edited to a notice that contains the exception's text; when nothing raises
   * there is no error notice. The download's own failure never escapes the flow:
   * only a failing error edit or a failing removal of the output file does.
   */
  lemma FailuresAreReported(chat: ChatId, url: string, fmt: string, quality: string, files: set<Path>, w: World)
    requires w.status.Sent?
    ensures var r := DownloadRun(chat, url, fmt, quality, files, w);
      var id := w.status.messageId;
      && (w.adapter.Fail? ==>
            EditStatus(chat, id, ErrorText(w.adapter.msg)) in r.effects && Contains(ErrorText(w.adapter.msg), w.adapter.msg))
      && (w.adapter.Ok? && !w.fileAfterAdapter ==> EditStatus(chat, id, ErrorText(FileNotFoundText)) in r.effects)
      && (w.adapter.Ok? && w.fileAfterAdapter && w.sendVideo.Fail? ==>
            EditStatus(chat, id, ErrorText(w.sendVideo.msg)) in r.effects)
      && (w.adapter.Ok? && w.fileAfterAdapter && w.sendVideo.Ok? && w.editDone.Fail? ==>
            EditStatus(chat, id, ErrorText(w.editDone.msg)) in r.effects)
      && (Delivered(w) <==> forall m :: EditStatus(chat, id, ErrorText(m)) !in r.effects)
      && (w.remove.Ok? || !w.fileAfterAdapter ==> (r.raised.Some? <==> !Delivered(w) && w.editError.Fail?))
      && (w.fileAfterAdapter && w.remove.Fail? ==> r.raised == Some(w.remove.msg))
  {
    var r := DownloadRun(chat, url, fmt, quality, files, w);
    var id := w.status.messageId;
    if !Delivered(w) {
      var (_, failure) := TryBlock(chat, url, fmt, id, w);
      assert EditStatus(chat, id, ErrorText(failure.value)) in r.effects;
    }
  }
}
