/** yt1.py: the first variant. It asks for no quality, always uses the
    unlimited video selector, and its download thread calls `update_progress`
    itself instead of scheduling it on the UI thread. */
module Yt1App {
  import opened Text
  import opened FormatSelector
  import opened Options
  import opened Gui

  /** The options `download_task` builds. */
  function DownloadOptions(mode: string, folder: string): YdlOptions {
    if mode == "video" then VideoOptions(UNLIMITED_FORMAT, folder) else AudioOptions(folder)
  }

  /** Video: merged mp4 video and m4a audio, else the best single mp4 file, else
      any file; merged into mp4; playlists ignored. Audio: as in every variant.
      Both write into the chosen folder under the title. */
  lemma DownloadOptionsMeaning(mode: string, folder: string)
    ensures var o := DownloadOptions(mode, folder);
      && Basename(o.outtmpl) == OUTPUT_NAME && StartsWith(o.outtmpl, folder)
      && (mode == "video" ==>
            && ParseSelector(o.format) == Some([MergedMp4(None), ANY_MP4, ANY_BEST])
            && o.mergeOutputFormat == Some("mp4") && o.noPlaylist == Some(true))
      && (mode != "video" ==>
            && ParseSelector(o.format) == Some([Single(Format("bestaudio", [])), ANY_BEST])
            && o.postprocessors == Some([PostProcessor("FFmpegExtractAudio", "mp3", "192")]))
  {
    if mode == "video" {
      UnlimitedFormatMeaning();
    } else {
      AudioOptionsMeaning(folder);
    }
  }

  // ---------------------------------------------------------------------
  // The application
  // ---------------------------------------------------------------------

  const INITIAL_STATUS: string := "Linkni kiriting va yuklashni boshlang"
  const EMPTY_URL_BOX: Dialog := WarningBox("Xato", "YouTube linkini kiriting!")
  const URL_ACCEPTED: string := "Link qabul qilindi → "
  const CHOOSING_STATUS: string := "Format tanlanmoqda..."
  const NO_FOLDER_MSG: string := "Bekor qilindi — papka tanlanmadi"
  const CANCELLED_STATUS: string := "Yuklash bekor qilindi"
  const FINISHED_MSG: string := "Fayl yuklandi → post-processing..."
  const DONE_MSG: string := "\n✅ Yuklash muvaffaqiyatli yakunlandi!"
  const DONE_STATUS: string := "Tayyor ✓"
  const DOWNLOAD_ERROR_PREFIX: string := "\n❌ Xato: "
  const ERROR_STATUS: string := "Xato yuz berdi"

  /** `YouTubeDownloaderApp` of yt1.py. `directProgress` records the
      `update_progress` calls the download thread makes without going through
      the UI thread; the other fields mean what they mean in main.py's model. */
  class App {
    const log: LogText
    var status: string
    var progressValue: int
    var percentText: string
    var active: bool
    var job: Option<Job>
    var pending: seq<UiCall>
    var dialogs: seq<Dialog>
    var directProgress: seq<string>

    constructor ()
      ensures fresh(log) && log.entries == []
      ensures status == INITIAL_STATUS && progressValue == 0 && percentText == "0%"
      ensures !active && job.None? && pending == [] && dialogs == [] && directProgress == []
    {
      log := new LogText();
      status := INITIAL_STATUS;
      progressValue := 0;
      percentText := "0%";
      active := false;
      job := None;
      pending := [];
      dialogs := [];
      directProgress := [];
    }

    method Log(msg: string, tag: string)
      modifies log
      ensures log.entries == old(log.entries) + [LogLine(msg, Some(tag))]
    {
      log.Insert(msg + "\n", Some(tag));
    }

    /** `start_process`: an empty stripped URL raises a warning box and changes
        nothing else; any other URL is logged and the format window opens. */
    method StartProcess(entry: string)
      modifies log, this`dialogs, this`status, this`progressValue, this`percentText
      ensures Strip(entry) == "" ==>
        && dialogs == old(dialogs) + [EMPTY_URL_BOX] && log.entries == old(log.entries)
        && status == old(status) && progressValue == old(progressValue) && percentText == old(percentText)
      ensures Strip(entry) != "" ==>
        && log.entries == old(log.entries) + [LogLine(URL_ACCEPTED + Strip(entry), Some("success"))]
        && status == CHOOSING_STATUS && progressValue == 0 && percentText == "0%"
        && dialogs == old(dialogs) + [FormatWindow(Strip(entry))]
    {
      var url := Strip(entry);
      if url == "" {
        dialogs := dialogs + [EMPTY_URL_BOX];
      } else {
        AcceptUrl(url);
      }
    }

    /** The accepted branch of `start_process`, ending in `ask_format`. */
    method AcceptUrl(url: string)
      modifies log, this`dialogs, this`status, this`progressValue, this`percentText
      ensures log.entries == old(log.entries) + [LogLine(URL_ACCEPTED + url, Some("success"))]
      ensures status == CHOOSING_STATUS && progressValue == 0 && percentText == "0%"
      ensures dialogs == old(dialogs) + [FormatWindow(url)]
    {
      Log(URL_ACCEPTED + url, "success");
      status := CHOOSING_STATUS;
      progressValue := 0;
      percentText := "0%";
      dialogs := dialogs + [FormatWindow(url)];
    }

    /** `ask_folder_and_download`; `folder` is "" when the dialog was cancelled.
        Cancelling also resets the progress bar and its label. */
    method AskFolderAndDownload(url: string, mode: string, folder: string)
      modifies log, this`status, this`progressValue, this`percentText, this`active, this`job
      ensures folder == "" ==>
        && log.entries == old(log.entries) + [LogLine(NO_FOLDER_MSG, Some("warning"))]
        && status == CANCELLED_STATUS && progressValue == 0 && percentText == "0%"
        && active == old(active) && job == old(job)
      ensures folder != "" ==> progressValue == old(progressValue) && percentText == old(percentText)
      ensures folder != "" && old(active) ==>
        && log.entries == old(log.entries) + [LogLine(BUSY_MSG, Some("warning"))]
        && status == old(status) && active && job == old(job)
      ensures folder != "" && !old(active) ==>
        && log.entries == StartEntries(mode, None) && status == DOWNLOADING_STATUS
        && active && job == Some(Job(url, mode, folder, None))
    {
      if folder == "" {
        Log(NO_FOLDER_MSG, "warning");
        status := CANCELLED_STATUS;
        progressValue := 0;
        percentText := "0%";
      } else {
        StartDownload(url, mode, folder);
      }
    }

    /** `start_download`: one warning and nothing else while a download runs;
        otherwise the log is cleared and only the start line is written. */
    method StartDownload(url: string, mode: string, folder: string)
      modifies log, this`status, this`active, this`job
      ensures old(active) ==>
        && log.entries == old(log.entries) + [LogLine(BUSY_MSG, Some("warning"))]
        && status == old(status) && active && job == old(job)
      ensures !old(active) ==>
        && log.entries == StartEntries(mode, None) && status == DOWNLOADING_STATUS
        && active && job == Some(Job(url, mode, folder, None))
    {
      if active {
        Log(BUSY_MSG, "warning");
      } else {
        log.Clear();
        Log("→ Yuklash boshlandi (" + Upper(mode) + ")", "success");
        status := DOWNLOADING_STATUS;
        job := Some(Job(url, mode, folder, None));
        active := true;
      }
    }

    /** The download thread: it logs its report directly and, on success, calls
        `update_progress("100%")` itself. */
    method DownloadTask(url: string, mode: string, folder: string, failure: Option<string>)
      returns (opts: YdlOptions)
      modifies log, this`status, this`directProgress, this`active
      ensures opts == DownloadOptions(mode, folder)
      ensures failure.None? ==>
        && log.entries == old(log.entries) + [LogLine(DONE_MSG, Some("success"))]
        && status == DONE_STATUS && directProgress == old(directProgress) + ["100%"]
      ensures failure.Some? ==>
        && log.entries == old(log.entries) + [LogLine(DOWNLOAD_ERROR_PREFIX + failure.value, Some("error"))]
        && status == ERROR_STATUS && directProgress == old(directProgress)
      ensures !active
    {
      if mode == "video" {
        opts := YdlOptions(UNLIMITED_FORMAT, OutputTemplate(folder), Some("mp4"), Some(true), None, None, None);
      } else {
        opts := YdlOptions(AUDIO_FORMAT, OutputTemplate(folder), None, None, None, None, Some([MP3_EXTRACT]));
      }
      if failure.None? {
        Log(DONE_MSG, "success");
        status := DONE_STATUS;
        directProgress := directProgress + ["100%"];
      } else {
        Log(DOWNLOAD_ERROR_PREFIX + failure.value, "error");
        status := ERROR_STATUS;
      }
      active := false;
    }

    /** `my_hook`. */
    method MyHook(d: HookInfo)
      modifies this`pending
      ensures pending == old(pending) + HookCalls(d, FINISHED_MSG)
    {
      if d.status == "downloading" {
        pending := pending + [UpdateProgress(d.percentStr.GetOr("0%"))];
      } else if d.status == "finished" {
        pending := pending + [UiCall.Log(FINISHED_MSG, "success")];
      }
    }
  }
}
