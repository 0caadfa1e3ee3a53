/** yt.py: the earliest variant. Its logger shows every message, its progress
    hook writes straight into the log widget, and its video options leave yt-dlp
    verbose and playlists unrestricted. */
module YtApp {
  import opened Text
  import opened FormatSelector
  import opened Options
  import opened Gui

  // ---------------------------------------------------------------------
  // The verbose logger
  // ---------------------------------------------------------------------

  /** What yt.py's logger inserts for one message: always exactly one chunk. */
  function VerboseEntries(level: Level, msg: string): seq<LogEntry> {
    [LevelEntry(level, msg)]
  }

  /** The logger never drops a message, and every chunk reads back as the
      message at its shown level. It differs from the other variants' logger
      exactly on debug messages starting with "[debug] ", which those drop. */
  lemma VerboseNeverDrops(level: Level, msg: string)
    ensures |VerboseEntries(level, msg)| == 1
    ensures ReadBack(VerboseEntries(level, msg)[0]) == Some((ShownLevel(level), msg))
    ensures VerboseEntries(level, msg) != LoggedEntries(level, msg)
            <==> level == DebugLevel && StartsWith(msg, DEBUG_PREFIX)
  {
    LoggedReadsBack(level, msg);
    assert LevelEntry(level, msg) in LoggedEntries(level, msg) || LoggedEntries(level, msg) == [];
    if LoggedEntries(level, msg) == [] {
      var e := LevelEntry(level, msg);
      assert e.text[..|e.text| - 1] == msg;
    }
  }

  /** The `GuiLogger` class of yt.py, bound to a log widget. */
  class VerboseLogger {
    const text: LogText

    constructor (widget: LogText)
      ensures text == widget
    {
      text := widget;
    }

    method TextInsert(s: string, tag: Option<string>)
      modifies text
      ensures text.entries == old(text.entries) + [LogEntry(s, tag)]
    {
      text.Insert(s, tag);
    }

    /** Both branches insert the message untagged. */
    method Debug(msg: string)
      modifies text
      ensures text.entries == old(text.entries) + VerboseEntries(DebugLevel, msg)
    {
      if StartsWith(msg, DEBUG_PREFIX) {
        TextInsert(msg + "\n", None);
      } else {
        Info(msg);
      }
    }

    method Info(msg: string)
      modifies text
      ensures text.entries == old(text.entries) + VerboseEntries(InfoLevel, msg)
    {
      TextInsert(msg + "\n", None);
    }

    method Warning(msg: string)
      modifies text
      ensures text.entries == old(text.entries) + VerboseEntries(WarningLevel, msg)
    {
      TextInsert(WARNING_PREFIX + msg + "\n", Some("warning"));
    }

    method Error(msg: string)
      modifies text
      ensures text.entries == old(text.entries) + VerboseEntries(ErrorLevel, msg)
    {
      TextInsert(ERROR_PREFIX + msg + "\n", Some("error"));
    }
  }

  // ---------------------------------------------------------------------
  // Download options and the progress line
  // ---------------------------------------------------------------------

  /** The options `download_task` builds: the video branch sets `quiet` and
      `no_warnings` to False and says nothing about playlists. */
  function DownloadOptions(mode: string, folder: string): YdlOptions {
    if mode == "video" then YdlOptions(UNLIMITED_FORMAT, OutputTemplate(folder), Some("mp4"), None, Some(false), Some(false), None)
    else AudioOptions(folder)
  }

  /** Video: the unlimited selector merged into mp4, with yt-dlp's output and
      warnings left on and no playlist restriction; audio as in every variant;
      both write into the chosen folder under the title. */
  lemma DownloadOptionsMeaning(mode: string, folder: string)
    ensures var o := DownloadOptions(mode, folder);
      && Basename(o.outtmpl) == OUTPUT_NAME && StartsWith(o.outtmpl, folder)
      && (mode == "video" ==>
            && ParseSelector(o.format) == Some([MergedMp4(None), ANY_MP4, ANY_BEST])
            && o.mergeOutputFormat == Some("mp4") && o.noPlaylist.None?
            && o.quiet == Some(false) && o.noWarnings == Some(false))
      && (mode != "video" ==>
            && ParseSelector(o.format) == Some([Single(Format("bestaudio", [])), ANY_BEST])
            && o.postprocessors == Some([PostProcessor("FFmpegExtractAudio", "mp3", "192")]))
  {
    if mode == "video" {
      UnlimitedFormatMeaning();
    } else {
      AudioOptionsMeaning(folder);
    }
  }

  const SEPARATOR: string := "   "
  const ETA_LABEL: string := "ETA: "

  function Percent(d: HookInfo): string { d.percentStr.GetOr("?%") }
  function Speed(d: HookInfo): string { d.speedStr.GetOr("?") }
  function Eta(d: HookInfo): string { d.etaStr.GetOr("?") }

  /** `f"{percent}   {speed}   ETA: {eta}"`. */
  function ProgressLine(d: HookInfo): string {
    Percent(d) + SEPARATOR + Speed(d) + SEPARATOR + ETA_LABEL + Eta(d)
  }

  lemma EtaLiteral()
    ensures "   ETA: " == SEPARATOR + ETA_LABEL
  {
  }

  /** The line leads with the percent ("?%" when yt-dlp gave none), ends with
      the ETA ("?" when none), and holds the speed ("?" when none) between the
      two separators; nothing else is added. */
  lemma ProgressLineShape(d: HookInfo)
    ensures StripPrefix(ProgressLine(d), Percent(d) + SEPARATOR) == Some(Speed(d) + SEPARATOR + ETA_LABEL + Eta(d))
    ensures EndsWith(ProgressLine(d), ETA_LABEL + Eta(d))
    ensures |ProgressLine(d)| == |Percent(d)| + |Speed(d)| + |Eta(d)| + 11
    ensures d.percentStr.None? ==> StartsWith(ProgressLine(d), "?%")
  {
    var p, s, e := Percent(d), Speed(d), Eta(d);
    assert ProgressLine(d) == (p + SEPARATOR) + (s + SEPARATOR + ETA_LABEL + e);
    StripPrefixAppend(p + SEPARATOR, s + SEPARATOR + ETA_LABEL + e);
    var l := ProgressLine(d);
    assert l == (p + SEPARATOR + s + SEPARATOR) + (ETA_LABEL + e);
    assert l[|l| - |ETA_LABEL + e|..] == ETA_LABEL + e;
    if d.percentStr.None? {
      assert l[..2] == "?%";
    }
  }

  // ---------------------------------------------------------------------
  // The application
  // ---------------------------------------------------------------------

  const INITIAL_STATUS: string := "Linkni kiriting va \"Yuklashni boshlash\" tugmasini bosing"
  const EMPTY_URL_BOX: Dialog := WarningBox("Xato", "Iltimos, YouTube linkini kiriting!")
  const URL_ACCEPTED: string := "Link qabul qilindi: "
  const CHOOSING_STATUS: string := "Format tanlanmoqda..."
  const NO_FOLDER_MSG: string := "Bekor qilindi — papka tanlanmadi"
  const CANCELLED_STATUS: string := "Yuklash bekor qilindi"
  const BUSY: string := "Hozir yuklash jarayoni davom etmoqda..."
  const DOWNLOADING: string := "Yuklanmoqda... (log oynasiga qarang)"
  const FINISHED_MSG: string := "Fayl yuklandi, post-processing boshlanmoqda..."
  const DONE_MSG: string := "\n✅ Yuklash muvaffaqiyatli yakunlandi!"
  const DONE_STATUS: string := "Yuklash tugadi ✓"
  const DOWNLOAD_ERROR_PREFIX: string := "\n❌ Xato yuz berdi: "
  const ERROR_STATUS: string := "Xato yuz berdi"

  /** The line `start_download` writes into the cleared log; the message itself
      ends in a line break, so `log` leaves an empty line after it. */
  function StartLine(mode: string): LogEntry {
    LogLine("→ Yuklash boshlandi (" + Upper(mode) + ")\n", Some("success"))
  }

  /** `YouTubeDownloaderApp` of yt.py. It has no progress bar and no thread-safe
      scheduling; `ydl` is the options of the downloader bound to `self.ydl`,
      None until a download starts. */
  class App {
    const log: LogText
    var status: string
    var active: bool
    var job: Option<Job>
    var dialogs: seq<Dialog>
    var ydl: Option<YdlOptions>

    constructor ()
      ensures fresh(log) && log.entries == []
      ensures status == INITIAL_STATUS && !active && job.None? && dialogs == [] && ydl.None?
    {
      log := new LogText();
      status := INITIAL_STATUS;
      active := false;
      job := None;
      dialogs := [];
      ydl := None;
    }

    /** `log(msg, tag=None)`. */
    method Log(msg: string, tag: Option<string>)
      modifies log
      ensures log.entries == old(log.entries) + [LogLine(msg, tag)]
    {
      log.Insert(msg + "\n", tag);
    }

    /** `start_process`: an empty stripped URL raises a warning box and changes
        nothing else; any other URL is logged and the format window opens. */
    method StartProcess(entry: string)
      modifies log, this`dialogs, this`status
      ensures Strip(entry) == "" ==>
        && dialogs == old(dialogs) + [EMPTY_URL_BOX] && log.entries == old(log.entries) && status == old(status)
      ensures Strip(entry) != "" ==>
        && log.entries == old(log.entries) + [LogLine(URL_ACCEPTED + Strip(entry), Some("success"))]
        && status == CHOOSING_STATUS && dialogs == old(dialogs) + [FormatWindow(Strip(entry))]
    {
      var url := Strip(entry);
      if url == "" {
        dialogs := dialogs + [EMPTY_URL_BOX];
      } else {
        Log(URL_ACCEPTED + url, Some("success"));
        status := CHOOSING_STATUS;
        dialogs := dialogs + [FormatWindow(url)];
      }
    }

    /** `ask_folder_and_download`: the video and audio branches differ only in
        the dialog title; `folder` is "" when the dialog was cancelled. */
    method AskFolderAndDownload(url: string, mode: string, folder: string)
      modifies log, this`status, this`active, this`job
      ensures folder == "" ==>
        && log.entries == old(log.entries) + [LogLine(NO_FOLDER_MSG, Some("warning"))]
        && status == CANCELLED_STATUS && active == old(active) && job == old(job)
      ensures folder != "" && old(active) ==>
        && log.entries == old(log.entries) + [LogLine(BUSY, Some("warning"))]
        && status == old(status) && active && job == old(job)
      ensures folder != "" && !old(active) ==>
        && log.entries == [StartLine(mode)] && status == DOWNLOADING
        && active && job == Some(Job(url, mode, folder, None))
    {
      if folder == "" {
        Log(NO_FOLDER_MSG, Some("warning"));
        status := CANCELLED_STATUS;
      } else {
        StartDownload(url, mode, folder);
      }
    }

    /** `start_download`: one warning and nothing else while a download runs. */
    method StartDownload(url: string, mode: string, folder: string)
      modifies log, this`status, this`active, this`job
      ensures old(active) ==>
        && log.entries == old(log.entries) + [LogLine(BUSY, Some("warning"))]
        && status == old(status) && active && job == old(job)
      ensures !old(active) ==>
        && log.entries == [StartLine(mode)] && status == DOWNLOADING
        && active && job == Some(Job(url, mode, folder, None))
    {
      if active {
        Log(BUSY, Some("warning"));
      } else {
        log.Clear();
        Log("→ Yuklash boshlandi (" + Upper(mode) + ")\n", Some("success"));
        status := DOWNLOADING;
        job := Some(Job(url, mode, folder, None));
        active := true;
      }
    }

    /** The download thread: it binds the downloader to `self.ydl` and logs its
        report directly. */
    method DownloadTask(url: string, mode: string, folder: string, failure: Option<string>)
      returns (opts: YdlOptions)
      modifies log, this`status, this`ydl, this`active
      ensures opts == DownloadOptions(mode, folder) && ydl == Some(opts)
      ensures failure.None? ==>
        && log.entries == old(log.entries) + [LogLine(DONE_MSG, Some("success"))] && status == DONE_STATUS
      ensures failure.Some? ==>
        && log.entries == old(log.entries) + [LogLine(DOWNLOAD_ERROR_PREFIX + failure.value, Some("error"))]
        && status == ERROR_STATUS
      ensures !active
    {
      if mode == "video" {
        opts := YdlOptions(UNLIMITED_FORMAT, OutputTemplate(folder), Some("mp4"), None, Some(false), Some(false), None);
      } else {
        opts := YdlOptions(AUDIO_FORMAT, OutputTemplate(folder), None, None, None, None, Some([MP3_EXTRACT]));
      }
      ydl := Some(opts);
      if failure.None? {
        Log(DONE_MSG, Some("success"));
        status := DONE_STATUS;
      } else {
        Log(DOWNLOAD_ERROR_PREFIX + failure.value, Some("error"));
        status := ERROR_STATUS;
      }
      active := false;
    }

    /** `progress_hook`, run on the download thread: a downloading record adds
        its progress line, ended by a carriage return and untagged; a finished
        record adds a success line; any other record adds nothing. */
    method ProgressHook(d: HookInfo)
      modifies log
      ensures d.status == "downloading" ==> log.entries == old(log.entries) + [LogEntry(ProgressLine(d) + "\r", None)]
      ensures d.status == "finished" ==> log.entries == old(log.entries) + [LogLine(FINISHED_MSG, Some("success"))]
      ensures d.status != "downloading" && d.status != "finished" ==> log.entries == old(log.entries)
    {
      if d.status == "downloading" {
        var percent := d.percentStr.GetOr("?%");
        var speed := d.speedStr.GetOr("?");
        var eta := d.etaStr.GetOr("?");
        var line := percent + "   " + speed + "   ETA: " + eta;
        EtaLiteral();
        assert line == ProgressLine(d);
        log.Insert(line + "\r", None);
      } else if d.status == "finished" {
        Log(FINISHED_MSG, Some("success"));
      }
    }
  }
}
