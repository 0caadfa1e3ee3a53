/** yt3.py: the third variant. Its video selector always falls back to the
    best single mp4 file before any file, its thumbnail lookup can raise, and
    its download thread writes its report into the log itself. */
module Yt3App {
  import opened Text
  import opened FormatSelector
  import opened Options
  import opened Gui

  /** The label of the quality dialog that asks for no height limit. */
  const BEST_QUALITY: string := "Eng yaxshisi"

  // ---------------------------------------------------------------------
  // Download options (download_task)
  // ---------------------------------------------------------------------

  /** What `fmt += '/best[ext=mp4]/best'` appends. */
  const FALLBACKS: string := "/best[ext=mp4]/best"

  /** `fmt` after the append. */
  function VideoFormat(quality: Option<string>): string {
    MergedPrefix(HeightFor(quality)) + FALLBACKS
  }

  function DownloadOptions(mode: string, folder: string, quality: Option<string>): YdlOptions {
    if mode == "video" then VideoOptions(VideoFormat(quality), folder) else AudioOptions(folder)
  }

  lemma FallbackLiteral()
    ensures "/" + "best[ext=mp4]" + "/" + "best" == FALLBACKS
  {
  }

  lemma UnlimitedLiteral()
    ensures "bestvideo[ext=mp4]+bestaudio[ext=m4a]" + FALLBACKS == UNLIMITED_FORMAT
  {
  }

  lemma VideoFormatText(quality: Option<string>)
    ensures VideoFormat(quality) == SelectorText([MergedMp4(HeightFor(quality)), ANY_MP4, ANY_BEST])
  {
    var h := HeightFor(quality);
    JoinThree(MergedMp4(h), ANY_MP4, ANY_BEST);
    MergedPrefixText(h);
    AnyMp4Text();
    assert AlternativeText(ANY_BEST) == "best";
    FallbackLiteral();
    TailRegroup(MergedPrefix(h), "/", "best[ext=mp4]", "/", "best");
  }

  lemma TailRegroup(a: string, b: string, c: string, d: string, e: string)
    ensures a + b + c + d + e == a + (b + c + d + e)
  {
  }

  /** The video selector reads as three alternatives: the merged mp4 video and
      m4a audio (height-limited exactly when the label is one of the four
      heights), then the best single mp4 file, then any file. */
  lemma VideoFormatParses(quality: Option<string>)
    ensures ParseSelector(VideoFormat(quality)) == Some([MergedMp4(HeightFor(quality)), ANY_MP4, ANY_BEST])
  {
    var h := HeightFor(quality);
    VideoFormatText(quality);
    FormatsArePlain(h);
    assert PlainWord("best") && PlainWord("mp4");
    assert PlainAlternative(ANY_MP4);
    SelectorRoundTrip([MergedMp4(h), ANY_MP4, ANY_BEST]);
  }

  /** Besides reading as its three alternatives, the selector always ends with
      "/best[ext=mp4]/best", and without a height it is the unlimited selector. */
  lemma VideoFormatMeaning(quality: Option<string>)
    ensures ParseSelector(VideoFormat(quality)) == Some([MergedMp4(HeightFor(quality)), ANY_MP4, ANY_BEST])
    ensures HeightCap(BestVideoMp4(HeightFor(quality)).filters) == HeightFor(quality)
    ensures EndsWith(VideoFormat(quality), FALLBACKS)
    ensures (quality.None? || quality.value !in HEIGHT_LABELS)
            ==> VideoFormat(quality) == UNLIMITED_FORMAT
  {
    var h := HeightFor(quality);
    VideoFormatParses(quality);
    HeightCapOf(h);
    FallbacksLast(quality);
    if h.None? {
      UnlimitedLiteral();
    }
  }

  lemma FallbacksLast(quality: Option<string>)
    ensures EndsWith(VideoFormat(quality), FALLBACKS)
  {
    var a := MergedPrefix(HeightFor(quality));
    assert (a + FALLBACKS)[|a|..] == FALLBACKS;
  }

  /** Audio ignores the label; video merges into mp4 and ignores playlists;
      both write into the chosen folder under the title. */
  lemma DownloadOptionsMeaning(mode: string, folder: string, quality: Option<string>)
    ensures var o := DownloadOptions(mode, folder, quality);
      && Basename(o.outtmpl) == OUTPUT_NAME && StartsWith(o.outtmpl, folder)
      && (mode == "video" ==>
            && ParseSelector(o.format) == Some([MergedMp4(HeightFor(quality)), ANY_MP4, ANY_BEST])
            && o.mergeOutputFormat == Some("mp4") && o.noPlaylist == Some(true))
      && (mode != "video" ==>
            && ParseSelector(o.format) == Some([Single(Format("bestaudio", [])), ANY_BEST])
            && o.postprocessors == Some([PostProcessor("FFmpegExtractAudio", "mp3", "192")]))
  {
    if mode == "video" {
      VideoFormatMeaning(quality);
    } else {
      AudioOptionsMeaning(folder);
    }
  }

  // ---------------------------------------------------------------------
  // Thumbnail URL (fetch_info_and_thumb)
  // ---------------------------------------------------------------------

  const INDEX_ERROR: string := "list index out of range"

  /** `info.get('thumbnail') or info.get('thumbnails', [{}])[0].get('url')`,
      with "" standing for every false value. The default list applies only
      when the key is missing, so an empty list raises IndexError. */
  function ThumbUrl(info: InfoDict): (r: Attempt<string>)
    ensures r.Raised? <==> !Truthy(info.thumbnail) && info.thumbnails == Some([])
    ensures r.Raised? ==> r.message == INDEX_ERROR
    ensures r.Ok? && Truthy(info.thumbnail) ==> r.value == info.thumbnail.value
    ensures r.Ok? && r.value != "" ==>
      (Some(r.value) == info.thumbnail || (info.thumbnails.Some? && info.thumbnails.value[0].url == Some(r.value)))
  {
    if Truthy(info.thumbnail) then Ok(info.thumbnail.value)
    else if info.thumbnails.None? then Ok("")
    else if info.thumbnails.value == [] then Raised(INDEX_ERROR)
    else Ok(info.thumbnails.value[0].url.GetOr(""))
  }

  const NO_THUMBNAIL: string := "Thumbnail topilmadi"
  const FETCH_ERROR_PREFIX: string := "Info olishda xato: "
  const FETCH_ERROR_TEXT: string := "Video ma'lumoti olinmadi"
  const ERROR_STATUS: string := "Xato yuz berdi"

  /** What the error callback of the info thread does with the message `m`. */
  function FetchErrorCalls(m: string): seq<UiCall> {
    [Log(FETCH_ERROR_PREFIX + m, "error"), SetThumbnailText(FETCH_ERROR_TEXT), SetStatus(ERROR_STATUS)]
  }

  /** What the info thread schedules. A raise in the thumbnail lookup is
      handled like a failed extraction: the error lambda is scheduled, and it
      reads `e` only when the UI thread runs it. */
  function FetchCalls(url: string, info: Attempt<InfoDict>): seq<UiCall> {
    match info
    case Raised(_) => ErrorLambdaCalls(EXCEPT_NAME_WHEN_RUN, FetchErrorCalls)
    case Ok(i) =>
      match ThumbUrl(i)
      case Raised(_) => ErrorLambdaCalls(EXCEPT_NAME_WHEN_RUN, FetchErrorCalls)
      case Ok(u) => ThumbnailCalls(u, NO_THUMBNAIL) + [AskFormat(url)]
  }

  /** The format window is offered exactly when the extraction succeeded and
      the info did not carry an empty thumbnail list with no thumbnail. In
      every other case the only thing scheduled is a callback that raises
      NameError: nothing is logged and the status keeps "Ma'lumot olinmoqda...". */
  lemma FetchOutcome(url: string, info: Attempt<InfoDict>)
    ensures AskFormat(url) in FetchCalls(url, info)
            <==> info.Ok? && !(!Truthy(info.value.thumbnail) && info.value.thumbnails == Some([]))
    ensures AskFormat(url) !in FetchCalls(url, info) ==> FetchCalls(url, info) == [Raising(NAME_ERROR)]
  {
    if info.Raised? || ThumbUrl(info.value).Raised? {
      FetchErrorCallbackAsWritten();
    } else {
      assert FetchCalls(url, info)[|FetchCalls(url, info)| - 1] == AskFormat(url);
    }
  }

  /** As written, the error callback reads `e` after the `except` block has
      unbound it: nothing is logged and the status keeps its old text. */
  lemma FetchErrorCallbackAsWritten()
    ensures ErrorCallback(EXCEPT_NAME_WHEN_RUN, FetchErrorCalls) == Raised(NAME_ERROR)
    ensures ErrorLambdaCalls(EXCEPT_NAME_WHEN_RUN, FetchErrorCalls) == [Raising(NAME_ERROR)]
  {
  }

  /** With the message bound when the callback is made, the callback logs it,
      marks the thumbnail and sets the error status; an empty `thumbnails`
      list is then reported as "list index out of range". */
  lemma FetchErrorCallbackCorrected(m: string)
    ensures ErrorCallback(Bound(m), FetchErrorCalls) == Ok(FetchErrorCalls(m))
    ensures ErrorLambdaCalls(Bound(m), FetchErrorCalls)[0] == Log(FETCH_ERROR_PREFIX + m, "error")
    ensures ErrorLambdaCalls(Bound(m), FetchErrorCalls)[1] == SetThumbnailText(FETCH_ERROR_TEXT)
    ensures ErrorLambdaCalls(Bound(m), FetchErrorCalls)[2] == SetStatus(ERROR_STATUS)
  {
  }

  // ---------------------------------------------------------------------
  // The application
  // ---------------------------------------------------------------------

  const INITIAL_STATUS: string := "Linkni kiriting..."
  const EMPTY_URL_BOX: Dialog := WarningBox("Xato", "Linkni kiriting!")
  const URL_ACCEPTED: string := "Link qabul qilindi → "
  const FETCHING_STATUS: string := "Ma'lumot olinmoqda..."
  const LOADING_THUMBNAIL_TEXT: string := "Thumbnail yuklanmoqda..."
  const NO_FOLDER_MSG: string := "Bekor qilindi — papka tanlanmadi"
  const CANCELLED_STATUS: string := "Bekor qilindi"
  const FINISHED_MSG: string := "Fayl yuklandi → birlashtirilmoqda..."
  const DONE_MSG: string := "\n✅ Tayyor!"
  const DONE_STATUS: string := "Yuklash yakunlandi ✓"
  const DOWNLOAD_ERROR_PREFIX: string := "\n❌ Xato: "

  /** `YouTubeDownloaderApp` of yt3.py; the fields mean what they mean in
      main.py's model. */
  class App {
    const log: LogText
    var status: string
    var progressValue: int
    var percentText: string
    var thumbnailText: string
    var active: bool
    var job: Option<Job>
    var pending: seq<UiCall>
    var dialogs: seq<Dialog>
    var fetching: seq<string>

    constructor ()
      ensures fresh(log) && log.entries == []
      ensures status == INITIAL_STATUS && progressValue == 0 && percentText == "0%"
      ensures thumbnailText == LOADING_THUMBNAIL_TEXT
      ensures !active && job.None? && pending == [] && dialogs == [] && fetching == []
    {
      log := new LogText();
      status := INITIAL_STATUS;
      progressValue := 0;
      percentText := "0%";
      thumbnailText := LOADING_THUMBNAIL_TEXT;
      active := false;
      job := None;
      pending := [];
      dialogs := [];
      fetching := [];
    }

    method Log(msg: string, tag: string)
      modifies log
      ensures log.entries == old(log.entries) + [LogLine(msg, Some(tag))]
    {
      log.Insert(msg + "\n", Some(tag));
    }

    /** `start_process`: an empty stripped URL raises a warning box and
        changes nothing else. */
    method StartProcess(entry: string)
      modifies log, this`dialogs, this`status, this`progressValue, this`percentText, this`thumbnailText,
               this`fetching
      ensures Strip(entry) == "" ==>
        && dialogs == old(dialogs) + [EMPTY_URL_BOX] && log.entries == old(log.entries)
        && status == old(status) && progressValue == old(progressValue)
        && percentText == old(percentText) && thumbnailText == old(thumbnailText)
        && fetching == old(fetching)
      ensures Strip(entry) != "" ==>
        && log.entries == old(log.entries) + [LogLine(URL_ACCEPTED + Strip(entry), Some("success"))]
        && status == FETCHING_STATUS && progressValue == 0 && percentText == "0%"
        && thumbnailText == LOADING_THUMBNAIL_TEXT && fetching == old(fetching) + [Strip(entry)]
        && dialogs == old(dialogs)
    {
      var url := Strip(entry);
      if url == "" {
        dialogs := dialogs + [EMPTY_URL_BOX];
      } else {
        AcceptUrl(url);
      }
    }

    /** The accepted branch of `start_process`. */
    method AcceptUrl(url: string)
      modifies log, this`status, this`progressValue, this`percentText, this`thumbnailText, this`fetching
      ensures log.entries == old(log.entries) + [LogLine(URL_ACCEPTED + url, Some("success"))]
      ensures status == FETCHING_STATUS && progressValue == 0 && percentText == "0%"
      ensures thumbnailText == LOADING_THUMBNAIL_TEXT && fetching == old(fetching) + [url]
    {
      Log(URL_ACCEPTED + url, "success");
      status := FETCHING_STATUS;
      progressValue := 0;
      percentText := "0%";
      thumbnailText := LOADING_THUMBNAIL_TEXT;
      fetching := fetching + [url];
    }

    /** The info thread for `url`. */
    method FetchInfoAndThumb(url: string, info: Attempt<InfoDict>)
      modifies this`pending
      ensures pending == old(pending) + FetchCalls(url, info)
    {
      var calls: seq<UiCall>;
      match info {
        case Raised(_) =>
          calls := ErrorLambdaCalls(EXCEPT_NAME_WHEN_RUN, FetchErrorCalls);
        case Ok(i) =>
          var thumb := ThumbUrl(i);
          match thumb {
            case Raised(_) =>
              calls := ErrorLambdaCalls(EXCEPT_NAME_WHEN_RUN, FetchErrorCalls);
            case Ok(u) =>
              calls := if u != "" then [ShowThumbnail(u)] else [SetThumbnailText(NO_THUMBNAIL)];
              calls := calls + [AskFormat(url)];
          }
      }
      pending := pending + calls;
    }

    /** `ask_folder_and_download`; `folder` is "" when the dialog was cancelled. */
    method AskFolderAndDownload(url: string, mode: string, quality: Option<string>, folder: string)
      modifies log, this`status, this`active, this`job
      ensures folder == "" ==>
        && log.entries == old(log.entries) + [LogLine(NO_FOLDER_MSG, Some("warning"))]
        && status == CANCELLED_STATUS && active == old(active) && job == old(job)
      ensures folder != "" && old(active) ==>
        && log.entries == old(log.entries) + [LogLine(BUSY_MSG, Some("warning"))]
        && status == old(status) && active && job == old(job)
      ensures folder != "" && !old(active) ==>
        && log.entries == StartEntries(mode, quality) && status == DOWNLOADING_STATUS
        && active && job == Some(Job(url, mode, folder, quality))
    {
      if folder == "" {
        Log(NO_FOLDER_MSG, "warning");
        status := CANCELLED_STATUS;
      } else {
        StartDownload(url, mode, folder, quality);
      }
    }

    /** `start_download`: one warning and nothing else while a download runs. */
    method StartDownload(url: string, mode: string, folder: string, quality: Option<string>)
      modifies log, this`status, this`active, this`job
      ensures old(active) ==>
        && log.entries == old(log.entries) + [LogLine(BUSY_MSG, Some("warning"))]
        && status == old(status) && active && job == old(job)
      ensures !old(active) ==>
        && log.entries == StartEntries(mode, quality) && status == DOWNLOADING_STATUS
        && active && job == Some(Job(url, mode, folder, quality))
    {
      if active {
        Log(BUSY_MSG, "warning");
      } else {
        log.Clear();
        Log("→ Yuklash boshlandi (" + Upper(mode) + ")", "success");
        if Truthy(quality) {
          Log("Sifat: " + quality.value, "info");
        }
        status := DOWNLOADING_STATUS;
        job := Some(Job(url, mode, folder, quality));
        active := true;
      }
    }

    /** The download thread: it logs its report directly and schedules only the
        final progress update. */
    method DownloadTask(url: string, mode: string, folder: string, quality: Option<string>,
                        failure: Option<string>) returns (opts: YdlOptions)
      modifies log, this`status, this`pending, this`active
      ensures opts == DownloadOptions(mode, folder, quality)
      ensures failure.None? ==>
        && log.entries == old(log.entries) + [LogLine(DONE_MSG, Some("success"))]
        && status == DONE_STATUS && pending == old(pending) + [UpdateProgress("100%")]
      ensures failure.Some? ==>
        && log.entries == old(log.entries) + [LogLine(DOWNLOAD_ERROR_PREFIX + failure.value, Some("error"))]
        && status == ERROR_STATUS && pending == old(pending)
      ensures !active
    {
      if mode == "video" {
        var fmt := MergedPrefix(HeightFor(quality));
        fmt := fmt + "/best[ext=mp4]/best";
        opts := YdlOptions(fmt, OutputTemplate(folder), Some("mp4"), Some(true), None, None, None);
      } else {
        opts := YdlOptions(AUDIO_FORMAT, OutputTemplate(folder), None, None, None, None, Some([MP3_EXTRACT]));
      }
      if failure.None? {
        Log(DONE_MSG, "success");
        status := DONE_STATUS;
        pending := pending + [UpdateProgress("100%")];
      } else {
        Log(DOWNLOAD_ERROR_PREFIX + failure.value, "error");
        status := ERROR_STATUS;
      }
      active := false;
    }

    /** `my_hook`. */
    method MyHook(d: HookInfo)
      modifies this`pending
      ensures pending == old(pending) + HookCalls(d, FINISHED_MSG)
    {
      if d.status == "downloading" {
        pending := pending + [UpdateProgress(d.percentStr.GetOr("0%"))];
      } else if d.status == "finished" {
        pending := pending + [UiCall.Log(FINISHED_MSG, "success")];
      }
    }
  }
}
