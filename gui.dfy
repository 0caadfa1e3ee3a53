/** What the variants share around the Tk window: the log widget, the yt-dlp
    logger that main.py, yt3.py, yt2.py and yt1.py attach to it, the progress
    hook's dispatch, and the records that stand for dialogs, deferred UI calls
    and the download thread. */
module Gui {
  import opened Text

  /** One `insert(tk.END, text, tag)` into the log widget. */
  datatype LogEntry = LogEntry(text: string, tag: Option<string>)

  /** The ScrolledText log widget, as the sequence of inserted chunks. Switching
      its state between 'normal' and 'disabled' around each insert and
      scrolling with `see` change nothing that is shown. */
  class LogText {
    var entries: seq<LogEntry>

    constructor ()
      ensures entries == []
    {
      entries := [];
    }

    /** `insert(tk.END, text, tag)`. */
    method Insert(text: string, tag: Option<string>)
      modifies this
      ensures entries == old(entries) + [LogEntry(text, tag)]
    {
      entries := entries + [LogEntry(text, tag)];
    }

    /** `delete("1.0", tk.END)`. */
    method Clear()
      modifies this
      ensures entries == []
    {
      entries := [];
    }
  }

  /** What an app's `log(msg, tag)` inserts: the message on a line of its own. */
  function LogLine(msg: string, tag: Option<string>): LogEntry {
    LogEntry(msg + "\n", tag)
  }

  // ---------------------------------------------------------------------
  // The yt-dlp logger of main.py, yt3.py, yt2.py and yt1.py
  // ---------------------------------------------------------------------

  const DEBUG_PREFIX: string := "[debug] "
  const WARNING_PREFIX: string := "[WARNING] "
  const ERROR_PREFIX: string := "[ERROR] "

  datatype Level = DebugLevel | InfoLevel | WarningLevel | ErrorLevel

  /** The chunk `info`, `warning` and `error` insert for a message. */
  function LevelEntry(level: Level, msg: string): LogEntry {
    match level
    case WarningLevel => LogEntry(WARNING_PREFIX + msg + "\n", Some("warning"))
    case ErrorLevel => LogEntry(ERROR_PREFIX + msg + "\n", Some("error"))
    case _ => LogEntry(msg + "\n", None)
  }

  /** What the logger inserts for one message: nothing for a debug message that
      starts with "[debug] ", one chunk otherwise. */
  function LoggedEntries(level: Level, msg: string): (r: seq<LogEntry>)
    ensures |r| <= 1
    ensures r == [] <==> level == DebugLevel && StartsWith(msg, DEBUG_PREFIX)
  {
    if level == DebugLevel && StartsWith(msg, DEBUG_PREFIX) then [] else [LevelEntry(level, msg)]
  }

  /** Reading a chunk of the log back: the tag tells the level, the prefix of
      that level is removed, and so is the final line end. Untagged chunks read
      as information. */
  function ReadBack(e: LogEntry): Option<(Level, string)> {
    if e.text == [] || e.text[|e.text| - 1] != '\n' then None
    else
      var body := e.text[..|e.text| - 1];
      match e.tag
      case None => Some((InfoLevel, body))
      case Some(t) =>
        if t == "warning" then
          match StripPrefix(body, WARNING_PREFIX)
          case Some(m) => Some((WarningLevel, m))
          case None => None
        else if t == "error" then
          match StripPrefix(body, ERROR_PREFIX)
          case Some(m) => Some((ErrorLevel, m))
          case None => None
        else None
  }

  /** The level a message shows up as: a debug message that passes the filter is
      forwarded to `info`. */
  function ShownLevel(level: Level): Level {
    if level == DebugLevel then InfoLevel else level
  }

  /** Every chunk the logger inserts reads back as the message itself, at its
      shown level: the logger forwards messages unchanged, and its prefixes and
      tags identify warnings and errors. */
  lemma LoggedReadsBack(level: Level, msg: string)
    ensures forall e :: e in LoggedEntries(level, msg) ==> ReadBack(e) == Some((ShownLevel(level), msg))
  {
    var e := LevelEntry(level, msg);
    match level
    case WarningLevel =>
      assert e.text[..|e.text| - 1] == WARNING_PREFIX + msg;
      StripPrefixAppend(WARNING_PREFIX, msg);
    case ErrorLevel =>
      assert e.text[..|e.text| - 1] == ERROR_PREFIX + msg;
      StripPrefixAppend(ERROR_PREFIX, msg);
    case _ =>
      assert e.text[..|e.text| - 1] == msg;
  }

  /** The `GuiLogger` class of main.py, yt3.py, yt2.py and yt1.py, bound to a
      log widget. */
  class GuiLogger {
    const text: LogText

    constructor (widget: LogText)
      ensures text == widget
    {
      text := widget;
    }

    /** `_insert` in main.py, `text_insert` in the other variants. */
    method TextInsert(s: string, tag: Option<string>)
      modifies text
      ensures text.entries == old(text.entries) + [LogEntry(s, tag)]
    {
      text.Insert(s, tag);
    }

    method Debug(msg: string)
      modifies text
      ensures text.entries == old(text.entries) + LoggedEntries(DebugLevel, msg)
    {
      if !StartsWith(msg, DEBUG_PREFIX) {
        Info(msg);
      }
    }

    method Info(msg: string)
      modifies text
      ensures text.entries == old(text.entries) + LoggedEntries(InfoLevel, msg)
    {
      TextInsert(msg + "\n", None);
    }

    method Warning(msg: string)
      modifies text
      ensures text.entries == old(text.entries) + LoggedEntries(WarningLevel, msg)
    {
      TextInsert(WARNING_PREFIX + msg + "\n", Some("warning"));
    }

    method Error(msg: string)
      modifies text
      ensures text.entries == old(text.entries) + LoggedEntries(ErrorLevel, msg)
    {
      TextInsert(ERROR_PREFIX + msg + "\n", Some("error"));
    }
  }

  // ---------------------------------------------------------------------
  // Progress hooks, deferred calls, dialogs, download jobs
  // ---------------------------------------------------------------------

  /** The dictionary yt-dlp passes to a progress hook: its status and the
      preformatted percent, speed and ETA strings, each None when absent. */
  datatype HookInfo = HookInfo(status: string, percentStr: Option<string>, speedStr: Option<string>, etaStr: Option<string>)

  /** A call handed to `root.after(0, ...)`, run later on the UI thread. */
  datatype UiCall =
    | UpdateProgress(percent: string)
    | Log(msg: string, tag: string)
    | SetStatus(text: string)
    | ShowThumbnail(url: string)
    | SetThumbnailText(text: string)
    | AskFormat(url: string)
    | ShowUpdatePrompt(version: string, downloadUrl: string)
      /** A callback that raises `error` when the UI thread runs it, before it
          makes any call. */
    | Raising(error: string)

  /** A window the app opens: a `showwarning`, `showerror` or `askyesno` box,
      or the "what to download" window of `ask_format` for a URL. */
  datatype Dialog = WarningBox(title: string, message: string) | ErrorBox(title: string, message: string)
                  | YesNoBox(title: string, message: string) | FormatWindow(url: string)

  /** The arguments the download thread was started with. */
  datatype Job = Job(url: string, mode: string, folder: string, quality: Option<string>)

  /** What `my_hook` schedules for one progress record in main.py, yt3.py,
      yt2.py and yt1.py; `finishedMsg` is the variant's "file downloaded" line. */
  function HookCalls(d: HookInfo, finishedMsg: string): seq<UiCall> {
    if d.status == "downloading" then [UpdateProgress(d.percentStr.GetOr("0%"))]
    else if d.status == "finished" then [Log(finishedMsg, "success")]
    else []
  }

  /** The hook schedules at most one call: a progress update carrying the
      record's percent text ("0%" when it has none) while downloading, one
      success line when finished, and nothing for any other status. */
  lemma HookDispatch(d: HookInfo, finishedMsg: string)
    ensures |HookCalls(d, finishedMsg)| <= 1
    ensures HookCalls(d, finishedMsg) == [] <==> d.status != "downloading" && d.status != "finished"
    ensures forall c :: c in HookCalls(d, finishedMsg) && c.UpdateProgress? ==>
      d.status == "downloading" && (d.percentStr.Some? ==> c.percent == d.percentStr.value)
                                && (d.percentStr.None? ==> c.percent == "0%")
    ensures forall c :: c in HookCalls(d, finishedMsg) && c.Log? ==>
      d.status == "finished" && c == Log(finishedMsg, "success")
  {
  }

  // ---------------------------------------------------------------------
  // The single-download guard of main.py, yt3.py, yt2.py and yt1.py
  // ---------------------------------------------------------------------

  const BUSY_MSG: string := "Yuklash allaqachon davom etmoqda..."
  const DOWNLOADING_STATUS: string := "Yuklanmoqda..."

  /** What `start_download` writes into the cleared log: the start line with
      the mode in capitals, then the quality line when a quality was chosen. */
  function StartEntries(mode: string, quality: Option<string>): seq<LogEntry> {
    [LogLine("→ Yuklash boshlandi (" + Upper(mode) + ")", Some("success"))]
    + (if Truthy(quality) then [LogLine("Sifat: " + quality.value, Some("info"))] else [])
  }

  /** A started download leaves one or two lines, the first a success line
      naming the mode and the second, present exactly when a quality was given,
      an information line naming it; neither is the busy warning, so the log
      tells a refused start from an accepted one. */
  lemma StartEntriesShape(mode: string, quality: Option<string>)
    ensures |StartEntries(mode, quality)| == if Truthy(quality) then 2 else 1
    ensures StartEntries(mode, quality)[0].tag == Some("success")
    ensures Truthy(quality) ==> StartEntries(mode, quality)[1] == LogLine("Sifat: " + quality.value, Some("info"))
    ensures LogLine(BUSY_MSG, Some("warning")) !in StartEntries(mode, quality)
  {
    var e := StartEntries(mode, quality);
    assert e[0].text[0] == '→' by {
      assert e[0].text == "→ Yuklash boshlandi (" + Upper(mode) + ")" + "\n";
    }
    assert LogLine(BUSY_MSG, Some("warning")).text[0] == 'Y';
  }

  /** Python's truth value of an optional string: present and non-empty. */
  predicate Truthy(s: Option<string>) {
    s.Some? && s.value != ""
  }

  // ---------------------------------------------------------------------
  // What `extract_info` returns, as far as the thumbnail goes
  // ---------------------------------------------------------------------

  /** One element of the `thumbnails` list; `url` is None when the key is
      missing or null. */
  datatype Thumb = Thumb(url: Option<string>)

  /** The info dictionary: `thumbnail` and `thumbnails` are None when the key is
      missing or null. */
  datatype InfoDict = InfoDict(thumbnail: Option<string>, thumbnails: Option<seq<Thumb>>)

  /** What the info thread schedules once it has a thumbnail URL (empty when
      there is none): show the picture, or put `missingText` in its place. */
  function ThumbnailCalls(url: string, missingText: string): seq<UiCall> {
    if url != "" then [ShowThumbnail(url)] else [SetThumbnailText(missingText)]
  }

  // ---------------------------------------------------------------------
  // Callbacks that read the exception of an `except ... as e:` block
  // ---------------------------------------------------------------------

  /** The name `e` when a deferred callback reads it. */
  datatype Binding = Bound(value: string) | Unbound

  /** Python unbinds the target of `except ... as e:` when the block ends, so a
      lambda handed to `root.after` inside the block finds `e` unbound when the
      UI thread runs it. */
  const EXCEPT_NAME_WHEN_RUN: Binding := Unbound

  const NAME_ERROR: string := "NameError"

  /** `str(e)` evaluated inside such a callback. */
  function StrOfExcept(e: Binding): Attempt<string> {
    match e
    case Bound(m) => Ok(m)
    case Unbound => Raised(NAME_ERROR)
  }

  /** Running an error callback whose list starts with `log(prefix + str(e))`:
      the list is built left to right, so when `str(e)` raises, none of the
      calls in it take place; otherwise they all do, in order. */
  function ErrorCallback(e: Binding, calls: string -> seq<UiCall>): Attempt<seq<UiCall>> {
    match StrOfExcept(e)
    case Raised(x) => Raised(x)
    case Ok(m) => Ok(calls(m))
  }

  /** What running such a callback on the UI thread amounts to: its calls in
      order, or, when `str(e)` raises, one callback that raises and calls
      nothing. */
  function ErrorLambdaCalls(e: Binding, calls: string -> seq<UiCall>): seq<UiCall> {
    match ErrorCallback(e, calls)
    case Raised(x) => [Raising(x)]
    case Ok(cs) => cs
  }
}
