/** main.py, the released variant: the download options, the thumbnail URL
    fallback, and the application object with its log, status line, download
    thread guard, deferred UI calls and self-update. */
module MainApp {
  import opened Text
  import opened FormatSelector
  import opened Options
  import opened Gui
  import opened UpdateCheck
  import opened Installer

  const TELEGRAM_CHANNEL: string := "@CodeDrop_py"

  /** The label of the quality dialog that asks for no height limit. */
  const BEST_QUALITY: string := "Eng yuqori sifat"

  // ---------------------------------------------------------------------
  // Download options (download_task)
  // ---------------------------------------------------------------------

  /** The selector the video branch builds from the chosen label: the best mp4
      video no taller than the label's height merged with the best m4a audio,
      else the best single file. */
  function VideoFormat(quality: Option<string>): string {
    FormatForHeight(HeightFor(quality))
  }

  /** The f-string of the video branch, on `max_h`. */
  function FormatForHeight(h: Option<nat>): string {
    if h.Some? then "bestvideo[height<=" + NatToDigits(h.value) + "][ext=mp4]+bestaudio[ext=m4a]/best"
    else "bestvideo[ext=mp4]+bestaudio[ext=m4a]/best"
  }

  /** The options record `download_task` hands to yt-dlp. */
  function DownloadOptions(mode: string, folder: string, quality: Option<string>): YdlOptions {
    if mode == "video" then VideoOptions(VideoFormat(quality), folder) else AudioOptions(folder)
  }

  lemma JoinAnyBest(h: Option<nat>)
    ensures SelectorText([MergedMp4(h), ANY_BEST]) == AlternativeText(MergedMp4(h)) + "/" + "best"
  {
    JoinTwo(MergedMp4(h), ANY_BEST);
    assert AlternativeText(ANY_BEST) == "best";
  }

  lemma BestTailLiteral()
    ensures "][ext=mp4]+bestaudio[ext=m4a]" + "/" + "best" == "][ext=mp4]+bestaudio[ext=m4a]/best"
  {
  }

  lemma UnlimitedBestLiteral()
    ensures "bestvideo[ext=mp4]+bestaudio[ext=m4a]" + "/" + "best" == "bestvideo[ext=mp4]+bestaudio[ext=m4a]/best"
  {
  }

  /** The f-string is the merged alternative followed by "/best". */
  lemma FormatForHeightSplit(h: Option<nat>)
    ensures FormatForHeight(h) == MergedPrefix(h) + "/" + "best"
  {
    if h.Some? {
      BestTailLiteral();
    } else {
      UnlimitedBestLiteral();
    }
  }

  lemma FormatForHeightText(h: Option<nat>)
    ensures FormatForHeight(h) == SelectorText([MergedMp4(h), ANY_BEST])
  {
    JoinAnyBest(h);
    MergedPrefixText(h);
    FormatForHeightSplit(h);
  }

  /** The video selector reads as two alternatives: the merged mp4 video and m4a
      audio, limited to the label's height when the label is one of the four
      heights and unlimited for "Eng yuqori sifat", any other label and no
      label; then any single file. */
  lemma VideoFormatMeaning(quality: Option<string>)
    ensures ParseSelector(VideoFormat(quality)) == Some([MergedMp4(HeightFor(quality)), ANY_BEST])
    ensures HeightCap(BestVideoMp4(HeightFor(quality)).filters) == HeightFor(quality)
    ensures quality.Some? && quality.value in HEIGHT_LABELS
            ==> VideoFormat(quality) == "bestvideo[height<=" + quality.value[..|quality.value| - 1]
                                        + "][ext=mp4]+bestaudio[ext=m4a]/best"
    ensures (quality.None? || quality.value !in HEIGHT_LABELS)
            ==> VideoFormat(quality) == "bestvideo[ext=mp4]+bestaudio[ext=m4a]/best"
  {
    var h := HeightFor(quality);
    FormatForHeightText(h);
    FormatsArePlain(h);
    SelectorRoundTrip([MergedMp4(h), ANY_BEST]);
    HeightCapOf(h);
    if h.Some? {
      assert quality.value[..|quality.value| - 1] == NatToDigits(h.value);
    }
  }

  /** The quality label is read only in video mode: audio always gets the mp3
      options, video the mp4 merge into one file with playlists ignored, and
      both write into the chosen folder under the title. */
  lemma DownloadOptionsMeaning(mode: string, folder: string, quality: Option<string>)
    ensures var o := DownloadOptions(mode, folder, quality);
      && Basename(o.outtmpl) == OUTPUT_NAME && StartsWith(o.outtmpl, folder)
      && (mode == "video" ==>
            && ParseSelector(o.format) == Some([MergedMp4(HeightFor(quality)), ANY_BEST])
            && o.mergeOutputFormat == Some("mp4") && o.noPlaylist == Some(true)
            && o.postprocessors.None?)
      && (mode != "video" ==>
            && o == DownloadOptions(mode, folder, None)
            && o.postprocessors == Some([PostProcessor("FFmpegExtractAudio", "mp3", "192")]))
  {
    if mode == "video" {
      VideoFormatMeaning(quality);
    } else {
      AudioOptionsMeaning(folder);
    }
  }

  // ---------------------------------------------------------------------
  // Thumbnail URL (fetch_info_and_thumb)
  // ---------------------------------------------------------------------

  /** `info.get('thumbnail') or (info.get('thumbnails') or [{}])[0].get('url', '')`,
      with "" standing for every false value. It never raises: a missing or
      empty list is replaced by a list holding one empty dictionary. */
  function ThumbUrl(info: InfoDict): (u: string)
    ensures Truthy(info.thumbnail) ==> u == info.thumbnail.value
    ensures u != "" ==> Some(u) == info.thumbnail
                        || (info.thumbnails.Some? && |info.thumbnails.value| > 0
                            && info.thumbnails.value[0].url == Some(u))
    ensures u == "" <==> !Truthy(info.thumbnail)
                         && (info.thumbnails.None? || info.thumbnails.value == []
                             || !Truthy(info.thumbnails.value[0].url))
  {
    if Truthy(info.thumbnail) then info.thumbnail.value
    else if info.thumbnails.None? || info.thumbnails.value == [] then ""
    else info.thumbnails.value[0].url.GetOr("")
  }

  const NO_THUMBNAIL: string := "Rasm topilmadi"
  const FETCH_ERROR_PREFIX: string := "Ma'lumot olishda xato: "
  const FETCH_ERROR_TEXT: string := "Video ma'lumotlari olinmadi"
  const ERROR_STATUS: string := "Xatolik yuz berdi"

  /** What the error callback of the info thread does with the message `m`. */
  function FetchErrorCalls(m: string): seq<UiCall> {
    [Log(FETCH_ERROR_PREFIX + m, "error"), SetThumbnailText(FETCH_ERROR_TEXT), SetStatus(ERROR_STATUS)]
  }

  /** What the info thread schedules: the thumbnail and the format window when
      the extraction succeeded; when it raised, the error lambda, which reads
      `e` only when the UI thread runs it. */
  function FetchCalls(url: string, info: Attempt<InfoDict>): seq<UiCall> {
    match info
    case Ok(i) => ThumbnailCalls(ThumbUrl(i), NO_THUMBNAIL) + [AskFormat(url)]
    case Raised(_) => ErrorLambdaCalls(EXCEPT_NAME_WHEN_RUN, FetchErrorCalls)
  }

  /** The format window is offered exactly when the extraction succeeded, and
      then last. A failed extraction schedules only a callback that raises
      NameError: nothing is logged, and neither the thumbnail text nor the
      status changes, so "Ma'lumot olinmoqda..." stays. */
  lemma FetchOutcome(url: string, info: Attempt<InfoDict>)
    ensures AskFormat(url) in FetchCalls(url, info) <==> info.Ok?
    ensures info.Ok? ==> |FetchCalls(url, info)| == 2 && FetchCalls(url, info)[1] == AskFormat(url)
                         && (FetchCalls(url, info)[0] == ShowThumbnail(ThumbUrl(info.value))
                             <==> ThumbUrl(info.value) != "")
    ensures info.Raised? ==> FetchCalls(url, info) == [Raising(NAME_ERROR)]
    ensures info.Raised? ==> forall c :: c in FetchCalls(url, info) ==> !c.Log? && !c.SetStatus? && !c.SetThumbnailText?
  {
    if info.Raised? {
      FetchErrorCallbackAsWritten();
    }
  }

  /** As written, the error callback of the info thread reads `e` after the
      `except` block has unbound it: it raises NameError before any of its
      three calls, so the failure is neither logged nor shown. */
  lemma FetchErrorCallbackAsWritten()
    ensures ErrorCallback(EXCEPT_NAME_WHEN_RUN, FetchErrorCalls) == Raised(NAME_ERROR)
    ensures ErrorLambdaCalls(EXCEPT_NAME_WHEN_RUN, FetchErrorCalls) == [Raising(NAME_ERROR)]
  {
  }

  /** With the message bound when the callback is made (`lambda m=str(e): ...`),
      the callback logs the message as an error, marks the thumbnail and sets
      the error status, and offers no format window. */
  lemma FetchErrorCallbackCorrected(url: string, m: string)
    ensures ErrorCallback(Bound(m), FetchErrorCalls) == Ok(FetchErrorCalls(m))
    ensures Log(FETCH_ERROR_PREFIX + m, "error") in ErrorLambdaCalls(Bound(m), FetchErrorCalls)
    ensures SetThumbnailText(FETCH_ERROR_TEXT) in ErrorLambdaCalls(Bound(m), FetchErrorCalls)
    ensures SetStatus(ERROR_STATUS) in ErrorLambdaCalls(Bound(m), FetchErrorCalls)
    ensures AskFormat(url) !in ErrorLambdaCalls(Bound(m), FetchErrorCalls)
  {
    assert ErrorLambdaCalls(Bound(m), FetchErrorCalls)[2] == SetStatus(ERROR_STATUS);
  }

  // ---------------------------------------------------------------------
  // Messages
  // ---------------------------------------------------------------------

  const INITIAL_STATUS: string := "Havolani kiriting va Boshlash tugmasini bosing"
  const INITIAL_THUMBNAIL_TEXT: string := "Video preview yuklanmoqda..."
  const EMPTY_URL_BOX: Dialog := WarningBox("Xato", "Iltimos, YouTube havolasini kiriting!")
  const URL_ACCEPTED: string := "Havola qabul qilindi → "
  const FETCHING_STATUS: string := "Ma'lumot olinmoqda..."
  const LOADING_THUMBNAIL_TEXT: string := "Preview yuklanmoqda..."
  const NO_FOLDER_MSG: string := "Papka tanlanmadi → bekor qilindi"
  const CANCELLED_STATUS: string := "Bekor qilindi"
  const FINISHED_MSG: string := "Fayl yuklandi → post-processing..."
  const DOWNLOAD_ERROR_PREFIX: string := "\n❌ Xato: "
  const UPDATE_TITLE: string := "Yangilanish mavjud"
  const UPDATING_MSG: string := "Yangilanish yuklanmoqda..."

  /** What the download thread schedules when yt-dlp returns. */
  const SUCCESS_CALLS: seq<UiCall> :=
    [Log("\n✅ Yuklash muvaffaqiyatli yakunlandi!", "success"), SetStatus("Tayyor ✓"), UpdateProgress("100%")]

  /** What the download thread's error callback does with the message `m`. */
  function DownloadErrorCalls(m: string): seq<UiCall> {
    [Log(DOWNLOAD_ERROR_PREFIX + m, "error"), SetStatus(ERROR_STATUS)]
  }

  /** As written, the download thread's error callback reads `e` after the
      `except` block has unbound it: the failure is neither logged nor shown in
      the status line. */
  lemma DownloadErrorCallbackAsWritten()
    ensures ErrorCallback(EXCEPT_NAME_WHEN_RUN, DownloadErrorCalls) == Raised(NAME_ERROR)
    ensures ErrorLambdaCalls(EXCEPT_NAME_WHEN_RUN, DownloadErrorCalls) == [Raising(NAME_ERROR)]
  {
  }

  /** With the message bound, the error is logged with the error tag and the
      status line reports it; nothing claims success. */
  lemma DownloadErrorCallbackCorrected(m: string)
    ensures ErrorCallback(Bound(m), DownloadErrorCalls) == Ok(DownloadErrorCalls(m))
    ensures DownloadErrorCalls(m)[0] == Log(DOWNLOAD_ERROR_PREFIX + m, "error")
    ensures forall c :: c in DownloadErrorCalls(m) ==> c !in SUCCESS_CALLS
  {
  }

  /** The question of `_show_update_prompt`. */
  function UpdatePromptText(version: string): string {
    "Yangi versiya v" + version + " chiqdi!\n\nYangilashni hozir boshlaymizmi?\n\n"
    + "Yangiliklar va yangi versiyalar: " + TELEGRAM_CHANNEL
  }

  /** What the update thread schedules: the prompt, when there is one. */
  function UpdateCalls(d: Decision): seq<UiCall> {
    match d
    case Prompt(v, u) => [ShowUpdatePrompt(v, u)]
    case NoPrompt => []
  }

  /** The error box of a failed update, if it failed. */
  function UpdateErrorBoxes(failure: Option<string>): seq<Dialog> {
    match failure
    case Some(m) => [ErrorBox("Yangilash xatosi", "Yangilash muvaffaqiyatsiz: " + m)]
    case None => []
  }

  // ---------------------------------------------------------------------
  // The application
  // ---------------------------------------------------------------------

  /** `YouTubeDownloaderApp`. `active` stands for "the download thread exists
      and is alive", `job` for the arguments it was started with; `pending`
      holds the calls handed to `root.after`, in order; `fetching` the URLs an
      info thread was started for; `checkingUpdate` stands for "the update-check
      thread is alive". */
  class App {
    const log: LogText
    const host: Host
    var status: string
    var progressValue: int
    var percentText: string
    var thumbnailText: string
    var active: bool
    var job: Option<Job>
    var pending: seq<UiCall>
    var dialogs: seq<Dialog>
    var fetching: seq<string>
    var quitting: bool
    var checkingUpdate: bool

    /** `__init__`: the widgets in their initial state, and the update-check
        thread of `check_update_on_start` started. */
    constructor (machine: Host)
      ensures fresh(log) && log.entries == [] && host == machine
      ensures status == INITIAL_STATUS && progressValue == 0 && percentText == "0%"
      ensures thumbnailText == INITIAL_THUMBNAIL_TEXT
      ensures !active && job.None? && pending == [] && dialogs == [] && fetching == [] && !quitting
      ensures checkingUpdate
    {
      log := new LogText();
      host := machine;
      status := INITIAL_STATUS;
      progressValue := 0;
      percentText := "0%";
      thumbnailText := INITIAL_THUMBNAIL_TEXT;
      active := false;
      job := None;
      pending := [];
      dialogs := [];
      fetching := [];
      quitting := false;
      checkingUpdate := true;
    }

    /** `log(msg, tag)`: one line appended to the log widget. */
    method Log(msg: string, tag: string)
      modifies log
      ensures log.entries == old(log.entries) + [LogLine(msg, Some(tag))]
    {
      log.Insert(msg + "\n", Some(tag));
    }

    /** `start_process` on the text of the URL entry: a URL that is empty once
        stripped raises a warning box and changes nothing else; any other is
        logged, the progress is reset and an info thread is started for it. */
    method StartProcess(entry: string)
      modifies log, this`dialogs, this`status, this`progressValue, this`percentText, this`thumbnailText,
               this`fetching
      ensures Strip(entry) == "" ==>
        && dialogs == old(dialogs) + [EMPTY_URL_BOX] && log.entries == old(log.entries)
        && status == old(status) && progressValue == old(progressValue)
        && percentText == old(percentText) && thumbnailText == old(thumbnailText)
        && fetching == old(fetching)
      ensures Strip(entry) != "" ==>
        && log.entries == old(log.entries) + [LogLine(URL_ACCEPTED + Strip(entry), Some("success"))]
        && status == FETCHING_STATUS && progressValue == 0 && percentText == "0%"
        && thumbnailText == LOADING_THUMBNAIL_TEXT && fetching == old(fetching) + [Strip(entry)]
        && dialogs == old(dialogs)
    {
      var url := Strip(entry);
      if url == "" {
        dialogs := dialogs + [EMPTY_URL_BOX];
      } else {
        AcceptUrl(url);
      }
    }

    /** The accepted branch of `start_process`. */
    method AcceptUrl(url: string)
      modifies log, this`status, this`progressValue, this`percentText, this`thumbnailText, this`fetching
      ensures log.entries == old(log.entries) + [LogLine(URL_ACCEPTED + url, Some("success"))]
      ensures status == FETCHING_STATUS && progressValue == 0 && percentText == "0%"
      ensures thumbnailText == LOADING_THUMBNAIL_TEXT && fetching == old(fetching) + [url]
    {
      Log(URL_ACCEPTED + url, "success");
      status := FETCHING_STATUS;
      progressValue := 0;
      percentText := "0%";
      thumbnailText := LOADING_THUMBNAIL_TEXT;
      fetching := fetching + [url];
    }

    /** The info thread for `url`; `info` is what `extract_info` returned or
        raised. */
    method FetchInfoAndThumb(url: string, info: Attempt<InfoDict>)
      modifies this`pending
      ensures pending == old(pending) + FetchCalls(url, info)
    {
      match info
      case Ok(i) =>
        var thumbUrl := ThumbUrl(i);
        if thumbUrl != "" {
          pending := pending + [ShowThumbnail(thumbUrl)];
        } else {
          pending := pending + [SetThumbnailText(NO_THUMBNAIL)];
        }
        pending := pending + [AskFormat(url)];
      case Raised(_) =>
        pending := pending + ErrorLambdaCalls(EXCEPT_NAME_WHEN_RUN, FetchErrorCalls);
    }

    /** `ask_folder_and_download`; `folder` is what `askdirectory` returned, ""
        when the dialog was cancelled. */
    method AskFolderAndDownload(url: string, mode: string, quality: Option<string>, folder: string)
      modifies log, this`status, this`active, this`job
      ensures folder == "" ==>
        && log.entries == old(log.entries) + [LogLine(NO_FOLDER_MSG, Some("warning"))]
        && status == CANCELLED_STATUS && active == old(active) && job == old(job)
      ensures folder != "" && old(active) ==>
        && log.entries == old(log.entries) + [LogLine(BUSY_MSG, Some("warning"))]
        && status == old(status) && active && job == old(job)
      ensures folder != "" && !old(active) ==>
        && log.entries == StartEntries(mode, quality) && status == DOWNLOADING_STATUS
        && active && job == Some(Job(url, mode, folder, quality))
    {
      if folder == "" {
        Log(NO_FOLDER_MSG, "warning");
        status := CANCELLED_STATUS;
      } else {
        StartDownload(url, mode, folder, quality);
      }
    }

    /** `start_download`: while a download runs, one warning line and nothing
        else; otherwise the log is cleared, the start is logged and the thread
        is started with these arguments. */
    method StartDownload(url: string, mode: string, folder: string, quality: Option<string>)
      modifies log, this`status, this`active, this`job
      ensures old(active) ==>
        && log.entries == old(log.entries) + [LogLine(BUSY_MSG, Some("warning"))]
        && status == old(status) && active && job == old(job)
      ensures !old(active) ==>
        && log.entries == StartEntries(mode, quality) && status == DOWNLOADING_STATUS
        && active && job == Some(Job(url, mode, folder, quality))
    {
      if active {
        Log(BUSY_MSG, "warning");
      } else {
        log.Clear();
        Log("→ Yuklash boshlandi (" + Upper(mode) + ")", "success");
        if Truthy(quality) {
          Log("Sifat: " + quality.value, "info");
        }
        status := DOWNLOADING_STATUS;
        job := Some(Job(url, mode, folder, quality));
        active := true;
      }
    }

    /** The download thread: it builds the options, runs yt-dlp (`failure` is
        the message of what it raised, if anything, which the error lambda
        never gets to read), schedules the report and ends. */
    method DownloadTask(url: string, mode: string, folder: string, quality: Option<string>,
                        failure: Option<string>) returns (opts: YdlOptions)
      modifies this`pending, this`active
      ensures opts == DownloadOptions(mode, folder, quality)
      ensures failure.None? ==> pending == old(pending) + SUCCESS_CALLS
      ensures failure.Some? ==> pending == old(pending) + [Raising(NAME_ERROR)]
      ensures !active
    {
      if mode == "video" {
        var fmt := VideoFormat(quality);
        opts := YdlOptions(fmt, OutputTemplate(folder), Some("mp4"), Some(true), None, None, None);
      } else {
        opts := YdlOptions(AUDIO_FORMAT, OutputTemplate(folder), None, None, None, None, Some([MP3_EXTRACT]));
      }
      if failure.None? {
        pending := pending + SUCCESS_CALLS;
      } else {
        DownloadErrorCallbackAsWritten();
        pending := pending + ErrorLambdaCalls(EXCEPT_NAME_WHEN_RUN, DownloadErrorCalls);
      }
      active := false;
    }

    /** `my_hook`, called by yt-dlp with a progress record. */
    method MyHook(d: HookInfo)
      modifies this`pending
      ensures pending == old(pending) + HookCalls(d, FINISHED_MSG)
    {
      if d.status == "downloading" {
        pending := pending + [UpdateProgress(d.percentStr.GetOr("0%"))];
      } else if d.status == "finished" {
        pending := pending + [UiCall.Log(FINISHED_MSG, "success")];
      }
    }

    /** The update thread started by the constructor, on what the release
        feed returned: it schedules the prompt, if any, and ends. */
    method CheckForUpdate(feed: Feed)
      modifies this`pending, this`checkingUpdate
      ensures pending == old(pending) + UpdateCalls(Decide(CURRENT_VERSION, feed))
      ensures !checkingUpdate
    {
      var d := Decide(CURRENT_VERSION, feed);
      if d.Prompt? {
        pending := pending + [ShowUpdatePrompt(d.version, d.downloadUrl)];
      }
      checkingUpdate := false;
    }

    /** `_perform_update`: every step that raises ends the attempt with an
        error box; a launched script makes the app quit. */
    method PerformUpdate(downloadUrl: string, tempDir: Attempt<string>, transfer: Transfer,
                         currentExe: string, launchError: Option<string>)
      modifies host, log, this`dialogs, this`quitting
      ensures var r := RunUpdate(old(host.State()), downloadUrl, tempDir, transfer, currentExe, launchError);
        && host.State() == r.host
        && log.entries == old(log.entries) + (if r.logged then [LogLine(UPDATING_MSG, Some("info"))] else [])
        && dialogs == old(dialogs) + UpdateErrorBoxes(r.failure)
        && quitting == (old(quitting) || r.failure.None?)
    {
      match tempDir
      case Raised(m) =>
        dialogs := dialogs + UpdateErrorBoxes(Some(m));
      case Ok(t) =>
        host.MakeDir(t);
        var newExe := StagedPath(t);
        Log(UPDATING_MSG, "info");
        host.Request(downloadUrl);
        match transfer
        case RequestFailed(m) =>
          dialogs := dialogs + UpdateErrorBoxes(Some(m));
        case StreamFailed(partial, m) =>
          host.WriteFile(newExe, Bytes(partial));
          dialogs := dialogs + UpdateErrorBoxes(Some(m));
        case Streamed(payload) =>
          host.WriteFile(newExe, Bytes(payload));
          var batPath := ScriptPath(t);
          host.WriteFile(batPath, Written(ScriptText(newExe, currentExe, t)));
          match launchError
          case Some(m) =>
            dialogs := dialogs + UpdateErrorBoxes(Some(m));
          case None =>
            host.Spawn(ScriptCommand(t));
            quitting := true;
    }

    /** `_show_update_prompt`: the yes/no box, and the update when the answer
        is yes. */
    method ShowUpdatePromptBox(version: string, downloadUrl: string, yes: bool, tempDir: Attempt<string>,
                               transfer: Transfer, currentExe: string, launchError: Option<string>)
      modifies host, log, this`dialogs, this`quitting
      ensures !yes ==>
        && dialogs == old(dialogs) + [YesNoBox(UPDATE_TITLE, UpdatePromptText(version))]
        && host.State() == old(host.State()) && log.entries == old(log.entries) && quitting == old(quitting)
      ensures yes ==>
        var r := RunUpdate(old(host.State()), downloadUrl, tempDir, transfer, currentExe, launchError);
        && host.State() == r.host
        && log.entries == old(log.entries) + (if r.logged then [LogLine(UPDATING_MSG, Some("info"))] else [])
        && dialogs == old(dialogs) + [YesNoBox(UPDATE_TITLE, UpdatePromptText(version))]
                      + UpdateErrorBoxes(r.failure)
        && quitting == (old(quitting) || r.failure.None?)
    {
      dialogs := dialogs + [YesNoBox(UPDATE_TITLE, UpdatePromptText(version))];
      if yes {
        PerformUpdate(downloadUrl, tempDir, transfer, currentExe, launchError);
      }
    }
  }
}
