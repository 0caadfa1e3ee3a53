/** yt2.py: the second variant. It has no thumbnail preview; its video
    selector adds a height-limited single-file alternative when a height is
    chosen. */
module Yt2App {
  import opened Text
  import opened FormatSelector
  import opened Options
  import opened Gui

  // ---------------------------------------------------------------------
  // Download options (download_task)
  // ---------------------------------------------------------------------

  /** The selector of the `if max_height:` branch, for the height's digits `d`. */
  function LimitedFormat(d: string): string {
    "bestvideo[height<=" + d + "][ext=mp4]+bestaudio[ext=m4a]/best[height<=" + d + "][ext=mp4]/best[ext=mp4]/best"
  }

  /** `format_str`: the limited selector when the label maps to a height, the
      unlimited one otherwise. */
  function VideoFormat(quality: Option<string>): string {
    var h := HeightFor(quality);
    if h.Some? then LimitedFormat(NatToDigits(h.value)) else UNLIMITED_FORMAT
  }

  /** The alternatives the selector names, best first. */
  function VideoChain(h: Option<nat>): seq<Alternative> {
    if h.Some? then [MergedMp4(h), Single(BestMp4(h)), ANY_MP4, ANY_BEST] else [MergedMp4(h), ANY_MP4, ANY_BEST]
  }

  function DownloadOptions(mode: string, folder: string, quality: Option<string>): YdlOptions {
    if mode == "video" then VideoOptions(VideoFormat(quality), folder) else AudioOptions(folder)
  }

  lemma LimitedSplitLiteral1()
    ensures "][ext=mp4]+bestaudio[ext=m4a]/best[height<=" == "][ext=mp4]+bestaudio[ext=m4a]" + "/" + "best" + "[height<="
  {
  }

  lemma LimitedSplitLiteral2()
    ensures "][ext=mp4]/best[ext=mp4]/best" == "]" + "[ext=mp4]" + "/" + "best[ext=mp4]" + "/" + "best"
  {
  }

  lemma Regroup9(a: string, d: string, b: string, c: string)
    ensures a + d + b + d + c
         == (a + d + "][ext=mp4]+bestaudio[ext=m4a]") + "/" + ("best" + ("[height<=" + d + "]") + "[ext=mp4]")
            + "/" + "best[ext=mp4]" + "/" + "best"
    requires b == "][ext=mp4]+bestaudio[ext=m4a]" + "/" + "best" + "[height<="
    requires c == "]" + "[ext=mp4]" + "/" + "best[ext=mp4]" + "/" + "best"
  {
  }

  lemma LimitedFormatText(h: Option<nat>)
    requires h.Some?
    ensures LimitedFormat(NatToDigits(h.value)) == SelectorText(VideoChain(h))
  {
    var d := NatToDigits(h.value);
    JoinFour(MergedMp4(h), Single(BestMp4(h)), ANY_MP4, ANY_BEST);
    MergedPrefixText(h);
    BestMp4Text(h);
    assert CapText(h) == "[height<=" + d + "]";
    AnyMp4Text();
    assert AlternativeText(ANY_BEST) == "best";
    LimitedSplitLiteral1();
    LimitedSplitLiteral2();
    Regroup9("bestvideo[height<=", d, "][ext=mp4]+bestaudio[ext=m4a]/best[height<=", "][ext=mp4]/best[ext=mp4]/best");
  }

  /** The video selector reads as its chain: with a height, merged mp4 video
      and m4a audio under the limit, the best single mp4 file under the limit,
      the best single mp4 file, any file; without one, the unlimited
      three-alternative chain. The height limit is the chosen label's. */
  lemma VideoFormatMeaning(quality: Option<string>)
    ensures ParseSelector(VideoFormat(quality)) == Some(VideoChain(HeightFor(quality)))
    ensures HeightCap(BestVideoMp4(HeightFor(quality)).filters) == HeightFor(quality)
    ensures HeightFor(quality).Some? ==>
      (|VideoChain(HeightFor(quality))| == 4
       && HeightCap(VideoChain(HeightFor(quality))[1].format.filters) == HeightFor(quality))
    ensures HeightFor(quality).None? ==> VideoFormat(quality) == UNLIMITED_FORMAT
  {
    var h := HeightFor(quality);
    if h.Some? {
      LimitedFormatMeaning(h);
      assert VideoChain(h)[1] == Single(BestMp4(h));
    } else {
      UnlimitedChainMeaning();
    }
  }

  lemma UnlimitedChainMeaning()
    ensures ParseSelector(UNLIMITED_FORMAT) == Some(VideoChain(None))
    ensures HeightCap(BestVideoMp4(None).filters).None?
  {
    UnlimitedFormatMeaning();
    HeightCapOf(None);
  }

  lemma LimitedFormatMeaning(h: Option<nat>)
    requires h.Some?
    ensures ParseSelector(LimitedFormat(NatToDigits(h.value))) == Some(VideoChain(h))
    ensures HeightCap(BestVideoMp4(h).filters) == h && HeightCap(BestMp4(h).filters) == h
  {
    LimitedFormatText(h);
    FormatsArePlain(h);
    assert PlainWord("best") && PlainWord("mp4");
    assert PlainAlternative(ANY_MP4);
    SelectorRoundTrip(VideoChain(h));
    HeightCapOf(h);
  }

  /** Audio ignores the label; video merges into mp4 and ignores playlists;
      both write into the chosen folder under the title. */
  lemma DownloadOptionsMeaning(mode: string, folder: string, quality: Option<string>)
    ensures var o := DownloadOptions(mode, folder, quality);
      && Basename(o.outtmpl) == OUTPUT_NAME && StartsWith(o.outtmpl, folder)
      && (mode == "video" ==>
            && ParseSelector(o.format) == Some(VideoChain(HeightFor(quality)))
            && o.mergeOutputFormat == Some("mp4") && o.noPlaylist == Some(true))
      && (mode != "video" ==>
            && ParseSelector(o.format) == Some([Single(Format("bestaudio", [])), ANY_BEST])
            && o.postprocessors == Some([PostProcessor("FFmpegExtractAudio", "mp3", "192")]))
  {
    if mode == "video" {
      VideoFormatMeaning(quality);
    } else {
      AudioOptionsMeaning(folder);
    }
  }

  // ---------------------------------------------------------------------
  // The application
  // ---------------------------------------------------------------------

  const INITIAL_STATUS: string := "Linkni kiriting..."
  const EMPTY_URL_BOX: Dialog := WarningBox("Xato", "Linkni kiriting!")
  const URL_ACCEPTED: string := "Link qabul qilindi → "
  const CHOOSING_STATUS: string := "Format tanlanmoqda..."
  const NO_FOLDER_MSG: string := "Bekor qilindi — papka tanlanmadi"
  const CANCELLED_STATUS: string := "Bekor qilindi"
  const FINISHED_MSG: string := "Fayl yuklandi → birlashtirilmoqda..."
  const DONE_MSG: string := "\n✅ Tayyor!"
  const DONE_STATUS: string := "Yuklash yakunlandi ✓"
  const DOWNLOAD_ERROR_PREFIX: string := "\n❌ Xato: "
  const ERROR_STATUS: string := "Xato yuz berdi"

  /** `YouTubeDownloaderApp` of yt2.py; the fields mean what they mean in
      main.py's model. */
  class App {
    const log: LogText
    var status: string
    var progressValue: int
    var percentText: string
    var active: bool
    var job: Option<Job>
    var pending: seq<UiCall>
    var dialogs: seq<Dialog>

    constructor ()
      ensures fresh(log) && log.entries == []
      ensures status == INITIAL_STATUS && progressValue == 0 && percentText == "0%"
      ensures !active && job.None? && pending == [] && dialogs == []
    {
      log := new LogText();
      status := INITIAL_STATUS;
      progressValue := 0;
      percentText := "0%";
      active := false;
      job := None;
      pending := [];
      dialogs := [];
    }

    method Log(msg: string, tag: string)
      modifies log
      ensures log.entries == old(log.entries) + [LogLine(msg, Some(tag))]
    {
      log.Insert(msg + "\n", Some(tag));
    }

    /** `start_process`: an empty stripped URL raises a warning box and changes
        nothing else; any other URL is logged and the format window opens. */
    method StartProcess(entry: string)
      modifies log, this`dialogs, this`status, this`progressValue, this`percentText
      ensures Strip(entry) == "" ==>
        && dialogs == old(dialogs) + [EMPTY_URL_BOX] && log.entries == old(log.entries)
        && status == old(status) && progressValue == old(progressValue) && percentText == old(percentText)
      ensures Strip(entry) != "" ==>
        && log.entries == old(log.entries) + [LogLine(URL_ACCEPTED + Strip(entry), Some("success"))]
        && status == CHOOSING_STATUS && progressValue == 0 && percentText == "0%"
        && dialogs == old(dialogs) + [FormatWindow(Strip(entry))]
    {
      var url := Strip(entry);
      if url == "" {
        dialogs := dialogs + [EMPTY_URL_BOX];
      } else {
        AcceptUrl(url);
      }
    }

    /** The accepted branch of `start_process`, ending in `ask_format`. */
    method AcceptUrl(url: string)
      modifies log, this`dialogs, this`status, this`progressValue, this`percentText
      ensures log.entries == old(log.entries) + [LogLine(URL_ACCEPTED + url, Some("success"))]
      ensures status == CHOOSING_STATUS && progressValue == 0 && percentText == "0%"
      ensures dialogs == old(dialogs) + [FormatWindow(url)]
    {
      Log(URL_ACCEPTED + url, "success");
      status := CHOOSING_STATUS;
      progressValue := 0;
      percentText := "0%";
      dialogs := dialogs + [FormatWindow(url)];
    }

    /** `ask_folder_and_download`; `folder` is "" when the dialog was cancelled. */
    method AskFolderAndDownload(url: string, mode: string, quality: Option<string>, folder: string)
      modifies log, this`status, this`active, this`job
      ensures folder == "" ==>
        && log.entries == old(log.entries) + [LogLine(NO_FOLDER_MSG, Some("warning"))]
        && status == CANCELLED_STATUS && active == old(active) && job == old(job)
      ensures folder != "" && old(active) ==>
        && log.entries == old(log.entries) + [LogLine(BUSY_MSG, Some("warning"))]
        && status == old(status) && active && job == old(job)
      ensures folder != "" && !old(active) ==>
        && log.entries == StartEntries(mode, quality) && status == DOWNLOADING_STATUS
        && active && job == Some(Job(url, mode, folder, quality))
    {
      if folder == "" {
        Log(NO_FOLDER_MSG, "warning");
        status := CANCELLED_STATUS;
      } else {
        StartDownload(url, mode, folder, quality);
      }
    }

    /** `start_download`: one warning and nothing else while a download runs. */
    method StartDownload(url: string, mode: string, folder: string, quality: Option<string>)
      modifies log, this`status, this`active, this`job
      ensures old(active) ==>
        && log.entries == old(log.entries) + [LogLine(BUSY_MSG, Some("warning"))]
        && status == old(status) && active && job == old(job)
      ensures !old(active) ==>
        && log.entries == StartEntries(mode, quality) && status == DOWNLOADING_STATUS
        && active && job == Some(Job(url, mode, folder, quality))
    {
      if active {
        Log(BUSY_MSG, "warning");
      } else {
        log.Clear();
        Log("→ Yuklash boshlandi (" + Upper(mode) + ")", "success");
        if Truthy(quality) {
          Log("Sifat: " + quality.value, "info");
        }
        status := DOWNLOADING_STATUS;
        job := Some(Job(url, mode, folder, quality));
        active := true;
      }
    }

    /** The download thread: it logs its report directly and schedules only the
        final progress update. */
    method DownloadTask(url: string, mode: string, folder: string, quality: Option<string>,
                        failure: Option<string>) returns (opts: YdlOptions)
      modifies log, this`status, this`pending, this`active
      ensures opts == DownloadOptions(mode, folder, quality)
      ensures failure.None? ==>
        && log.entries == old(log.entries) + [LogLine(DONE_MSG, Some("success"))]
        && status == DONE_STATUS && pending == old(pending) + [UpdateProgress("100%")]
      ensures failure.Some? ==>
        && log.entries == old(log.entries) + [LogLine(DOWNLOAD_ERROR_PREFIX + failure.value, Some("error"))]
        && status == ERROR_STATUS && pending == old(pending)
      ensures !active
    {
      if mode == "video" {
        var formatStr := VideoFormat(quality);
        opts := YdlOptions(formatStr, OutputTemplate(folder), Some("mp4"), Some(true), None, None, None);
      } else {
        opts := YdlOptions(AUDIO_FORMAT, OutputTemplate(folder), None, None, None, None, Some([MP3_EXTRACT]));
      }
      if failure.None? {
        Log(DONE_MSG, "success");
        status := DONE_STATUS;
        pending := pending + [UpdateProgress("100%")];
      } else {
        Log(DOWNLOAD_ERROR_PREFIX + failure.value, "error");
        status := ERROR_STATUS;
      }
      active := false;
    }

    /** `my_hook`. */
    method MyHook(d: HookInfo)
      modifies this`pending
      ensures pending == old(pending) + HookCalls(d, FINISHED_MSG)
    {
      if d.status == "downloading" {
        pending := pending + [UpdateProgress(d.percentStr.GetOr("0%"))];
      } else if d.status == "finished" {
        pending := pending + [UiCall.Log(FINISHED_MSG, "success")];
      }
    }
  }
}
