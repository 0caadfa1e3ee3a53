/** What `_perform_update` in main.py builds: the two files it stages in a fresh
    temporary directory, and the Windows batch script that replaces the running
    program with the downloaded one. The script is also given as a list of
    commands, and a reader of the script text recovers exactly that list. */
module Installer {
  import opened Text

  const STAGED_NAME: string := "YouTubeDownloader_new.exe"
  const SCRIPT_NAME: string := "update.bat"

  /** `os.path.join(temp_dir, "YouTubeDownloader_new.exe")`. */
  function StagedPath(tempDir: string): string {
    PathJoin(tempDir, STAGED_NAME)
  }

  /** `os.path.join(temp_dir, "update.bat")`. */
  function ScriptPath(tempDir: string): string {
    PathJoin(tempDir, SCRIPT_NAME)
  }

  /** The downloaded program and the script sit side by side in the temporary
      directory under their fixed names, and they are two different files. */
  lemma StagedFilesShareTempDir(tempDir: string)
    ensures Basename(StagedPath(tempDir)) == STAGED_NAME
    ensures Basename(ScriptPath(tempDir)) == SCRIPT_NAME
    ensures StartsWith(StagedPath(tempDir), tempDir) && StartsWith(ScriptPath(tempDir), tempDir)
    ensures StagedPath(tempDir)[..|StagedPath(tempDir)| - |STAGED_NAME|]
         == ScriptPath(tempDir)[..|ScriptPath(tempDir)| - |SCRIPT_NAME|]
    ensures StagedPath(tempDir) != ScriptPath(tempDir)
  {
    assert NoPathSep(STAGED_NAME) && NoPathSep(SCRIPT_NAME);
    JoinedPath(tempDir, STAGED_NAME);
    JoinedPath(tempDir, SCRIPT_NAME);
    assert |StagedPath(tempDir)| != |ScriptPath(tempDir)|;
  }

  /** Text made of lines, each ended by "\n". */
  function Lines(ls: seq<string>): string {
    if ls == [] then "" else ls[0] + "\n" + Lines(ls[1..])
  }

  /** The lines of the batch file written to `update.bat`, as `_perform_update`
      formats them. */
  function ScriptLines(newExe: string, currentExe: string, tempDir: string): seq<string> {
    ["@echo off",
     "timeout /t 3 >nul",
     "taskkill /f /im \"" + Basename(currentExe) + "\" >nul 2>&1",
     "move /y \"" + newExe + "\" \"" + currentExe + "\"",
     "start \"\" \"" + currentExe + "\"",
     "rmdir /s /q \"" + tempDir + "\"",
     "del \"%~f0\""]
  }

  function ScriptText(newExe: string, currentExe: string, tempDir: string): string {
    Lines(ScriptLines(newExe, currentExe, tempDir))
  }

  // ---------------------------------------------------------------------
  // The script as a list of commands
  // ---------------------------------------------------------------------

  datatype Command =
    | EchoOff                          // @echo off
    | Wait(seconds: nat)               // timeout /t N >nul
    | KillImage(image: string)         // taskkill /f /im "image" >nul 2>&1
    | MoveOver(source: string, target: string)  // move /y "source" "target"
    | Launch(program: string)          // start "" "program"
    | RemoveTree(dir: string)          // rmdir /s /q "dir"
    | DeleteSelf                       // del "%~f0"

  /** The commands of the update script, in the order they run. */
  function Plan(newExe: string, currentExe: string, tempDir: string): seq<Command> {
    [EchoOff, Wait(3), KillImage(Basename(currentExe)), MoveOver(newExe, currentExe),
     Launch(currentExe), RemoveTree(tempDir), DeleteSelf]
  }

  function Quote(s: string): string {
    "\"" + s + "\""
  }

  function Keyword(c: Command): string {
    match c
    case EchoOff => "@echo"
    case Wait(_) => "timeout"
    case KillImage(_) => "taskkill"
    case MoveOver(_, _) => "move"
    case Launch(_) => "start"
    case RemoveTree(_) => "rmdir"
    case DeleteSelf => "del"
  }

  function Arguments(c: Command): string {
    match c
    case EchoOff => "off"
    case Wait(n) => "/t " + NatToDigits(n) + " >nul"
    case KillImage(x) => "/f /im " + Quote(x) + " >nul 2>&1"
    case MoveOver(s, d) => "/y " + Quote(s) + " " + Quote(d)
    case Launch(p) => Quote("") + " " + Quote(p)
    case RemoveTree(d) => "/s /q " + Quote(d)
    case DeleteSelf => Quote("%~f0")
  }

  /** One line of the script, without its line end. */
  function CommandLine(c: Command): string {
    Keyword(c) + " " + Arguments(c)
  }

  function CommandLines(cmds: seq<Command>): (lines: seq<string>)
    ensures |lines| == |cmds|
    ensures forall i :: 0 <= i < |cmds| ==> lines[i] == CommandLine(cmds[i])
  {
    if cmds == [] then [] else [CommandLine(cmds[0])] + CommandLines(cmds[1..])
  }

  /** A script: every command on a line of its own, each line ended by "\n". */
  function ScriptOf(cmds: seq<Command>): string {
    Lines(CommandLines(cmds))
  }

  // ---------------------------------------------------------------------
  // Reading a script back
  // ---------------------------------------------------------------------

  /** A double-quoted word at the start of `s`, and what follows it. */
  function Unquote(s: string): (r: Option<(string, string)>)
    ensures r.Some? ==> s == Quote(r.value.0) + r.value.1 && '"' !in r.value.0
  {
    if s != [] && s[0] == '"' then
      match SplitFirst(s[1..], '"')
      case None => None
      case Some((w, rest)) =>
        assert s == ['"'] + s[1..];
        Some((w, rest))
    else None
  }

  function ParseTimeout(args: string): Option<Command> {
    match StripPrefix(args, "/t ")
    case None => None
    case Some(r) =>
      match SplitFirst(r, ' ')
      case None => None
      case Some((ds, tail)) =>
        if ds != [] && AllDigits(ds) && tail == ">nul" then Some(Wait(DigitsValue(ds))) else None
  }

  function ParseKill(args: string): Option<Command> {
    match StripPrefix(args, "/f /im ")
    case None => None
    case Some(r) =>
      match Unquote(r)
      case None => None
      case Some((x, tail)) => if tail == " >nul 2>&1" then Some(KillImage(x)) else None
  }

  function ParseMove(args: string): Option<Command> {
    match StripPrefix(args, "/y ")
    case None => None
    case Some(r) =>
      match Unquote(r)
      case None => None
      case Some((s, t)) =>
        match StripPrefix(t, " ")
        case None => None
        case Some(t2) =>
          match Unquote(t2)
          case None => None
          case Some((d, t3)) => if t3 == "" then Some(MoveOver(s, d)) else None
  }

  /** `prefix "word"` with nothing after the closing quote. */
  function ParseOneQuoted(args: string, prefix: string): Option<string> {
    match StripPrefix(args, prefix)
    case None => None
    case Some(r) =>
      match Unquote(r)
      case None => None
      case Some((w, tail)) => if tail == "" then Some(w) else None
  }

  function ParseArguments(keyword: string, args: string): Option<Command> {
    if keyword == "@echo" then (if args == "off" then Some(EchoOff) else None)
    else if keyword == "timeout" then ParseTimeout(args)
    else if keyword == "taskkill" then ParseKill(args)
    else if keyword == "move" then ParseMove(args)
    else if keyword == "start" then
      match ParseOneQuoted(args, "\"\" ") case None => None case Some(p) => Some(Launch(p))
    else if keyword == "rmdir" then
      match ParseOneQuoted(args, "/s /q ") case None => None case Some(d) => Some(RemoveTree(d))
    else if keyword == "del" then (if args == Quote("%~f0") then Some(DeleteSelf) else None)
    else None
  }

  /** A line is a keyword, a space, and the keyword's arguments. */
  function ParseCommand(line: string): Option<Command> {
    match SplitFirst(line, ' ')
    case None => None
    case Some((keyword, args)) => ParseArguments(keyword, args)
  }

  function ParseCommands(lines: seq<string>): (r: Option<seq<Command>>)
    ensures r.Some? ==> |r.value| == |lines|
  {
    if lines == [] then Some([])
    else match (ParseCommand(lines[0]), ParseCommands(lines[1..]))
      case (Some(c), Some(rest)) => Some([c] + rest)
      case _ => None
  }

  /** The commands of a script text whose every line ends in "\n". */
  function ParseScript(text: string): Option<seq<Command>> {
    var lines := Split(text, '\n');
    if lines[|lines| - 1] != "" then None else ParseCommands(lines[..|lines| - 1])
  }

  // ---------------------------------------------------------------------
  // Round trip
  // ---------------------------------------------------------------------

  /** A path the script can quote: no double quote and no line end in it. */
  predicate Quotable(s: string) {
    '"' !in s && '\n' !in s
  }

  predicate QuotableCommand(c: Command) {
    match c
    case KillImage(x) => Quotable(x)
    case MoveOver(s, d) => Quotable(s) && Quotable(d)
    case Launch(p) => Quotable(p)
    case RemoveTree(d) => Quotable(d)
    case _ => true
  }

  lemma UnquoteQuote(w: string, rest: string)
    requires '"' !in w
    ensures Unquote(Quote(w) + rest) == Some((w, rest))
  {
    var s := Quote(w) + rest;
    assert s[1..] == w + ['"'] + rest;
    SplitFirstAt(w, rest, '"');
  }

  lemma ParseOneQuotedOf(prefix: string, w: string)
    requires '"' !in w
    ensures ParseOneQuoted(prefix + Quote(w), prefix) == Some(w)
  {
    StripPrefixAppend(prefix, Quote(w));
    UnquoteQuote(w, "");
    assert Quote(w) + "" == Quote(w);
  }

  lemma ParseTimeoutOf(n: nat)
    ensures ParseTimeout(Arguments(Wait(n))) == Some(Wait(n))
  {
    var d := NatToDigits(n);
    var r := d + " >nul";
    assert Arguments(Wait(n)) == "/t " + r;
    StripPrefixAppend("/t ", r);
    assert ' ' !in d by {
      assert forall i :: 0 <= i < |d| ==> IsDigit(d[i]);
    }
    assert r == d + [' '] + ">nul";
    SplitFirstAt(d, ">nul", ' ');
    assert SplitFirst(r, ' ') == Some((d, ">nul"));
    DigitsRoundTrip(n);
  }

  lemma ParseKillOf(x: string)
    requires '"' !in x
    ensures ParseKill(Arguments(KillImage(x))) == Some(KillImage(x))
  {
    var r := Quote(x) + " >nul 2>&1";
    assert Arguments(KillImage(x)) == "/f /im " + r;
    StripPrefixAppend("/f /im ", r);
    UnquoteQuote(x, " >nul 2>&1");
    assert Unquote(r) == Some((x, " >nul 2>&1"));
  }

  lemma ParseMoveOf(s: string, d: string)
    requires '"' !in s && '"' !in d
    ensures ParseMove(Arguments(MoveOver(s, d))) == Some(MoveOver(s, d))
  {
    var tail := " " + Quote(d);
    assert Arguments(MoveOver(s, d)) == "/y " + (Quote(s) + tail);
    StripPrefixAppend("/y ", Quote(s) + tail);
    UnquoteQuote(s, tail);
    StripPrefixAppend(" ", Quote(d));
    UnquoteQuote(d, "");
    assert Quote(d) + "" == Quote(d);
  }

  lemma KeywordNoSpace(c: Command)
    ensures ' ' !in Keyword(c)
  {
  }

  /** Every line written for a command reads back as that command. */
  lemma ParseCommandLine(c: Command)
    requires QuotableCommand(c)
    ensures ParseCommand(CommandLine(c)) == Some(c)
  {
    KeywordNoSpace(c);
    assert CommandLine(c) == Keyword(c) + [' '] + Arguments(c);
    SplitFirstAt(Keyword(c), Arguments(c), ' ');
    ParseArgumentsOf(c);
  }

  lemma ParseArgumentsOf(c: Command)
    requires QuotableCommand(c)
    ensures ParseArguments(Keyword(c), Arguments(c)) == Some(c)
  {
    match c
    case EchoOff =>
    case Wait(n) => ParseTimeoutOf(n);
    case KillImage(x) => ParseKillOf(x);
    case MoveOver(s, d) => ParseMoveOf(s, d);
    case Launch(p) => ParseLaunchOf(p);
    case RemoveTree(d) => ParseRemoveOf(d);
    case DeleteSelf =>
  }

  lemma ParseLaunchOf(p: string)
    requires '"' !in p
    ensures ParseArguments("start", Arguments(Launch(p))) == Some(Launch(p))
  {
    assert Arguments(Launch(p)) == "\"\" " + Quote(p);
    ParseOneQuotedOf("\"\" ", p);
  }

  lemma ParseRemoveOf(d: string)
    requires '"' !in d
    ensures ParseArguments("rmdir", Arguments(RemoveTree(d))) == Some(RemoveTree(d))
  {
    RmdirKeyword();
    ParseOneQuotedOf("/s /q ", d);
  }

  lemma RmdirKeyword()
    ensures "rmdir" != "@echo" && "rmdir" != "timeout" && "rmdir" != "taskkill"
    ensures "rmdir" != "move" && "rmdir" != "start"
  {
    assert "rmdir"[0] != "@echo"[0] && "rmdir"[0] != "start"[0];
  }

  lemma QuoteOneLine(w: string)
    requires '\n' !in w
    ensures '\n' !in Quote(w)
  {
  }

  lemma CommandLineOneLine(c: Command)
    requires QuotableCommand(c)
    ensures '\n' !in CommandLine(c)
  {
    assert '\n' !in Keyword(c);
    match c
    case EchoOff =>
    case Wait(n) =>
      var d := NatToDigits(n);
      assert '\n' !in d by {
        assert forall i :: 0 <= i < |d| ==> IsDigit(d[i]);
      }
    case KillImage(x) => QuoteOneLine(x);
    case MoveOver(src, dst) => QuoteOneLine(src); QuoteOneLine(dst);
    case Launch(p) => QuoteOneLine(p); QuoteOneLine("");
    case RemoveTree(d) => QuoteOneLine(d);
    case DeleteSelf => QuoteOneLine("%~f0");
  }

  lemma {:induction false} SplitLines(ls: seq<string>)
    requires forall i :: 0 <= i < |ls| ==> '\n' !in ls[i]
    ensures Split(Lines(ls), '\n') == ls + [""]
  {
    if ls == [] {
      SplitWithoutSep("", '\n');
    } else {
      SplitLines(ls[1..]);
      SplitAfterFirst(ls[0], Lines(ls[1..]), '\n');
      assert [ls[0]] + (ls[1..] + [""]) == ls + [""];
    }
  }

  lemma ParseCommandsCons(l: seq<string>, c: Command, rest: seq<Command>)
    requires l != [] && ParseCommand(l[0]) == Some(c) && ParseCommands(l[1..]) == Some(rest)
    ensures ParseCommands(l) == Some([c] + rest)
  {
  }

  lemma {:induction false} ParseCommandLines(cmds: seq<Command>)
    requires forall i :: 0 <= i < |cmds| ==> QuotableCommand(cmds[i])
    ensures ParseCommands(CommandLines(cmds)) == Some(cmds)
  {
    if cmds != [] {
      var l := CommandLines(cmds);
      assert l[0] == CommandLine(cmds[0]);
      assert l[1..] == CommandLines(cmds[1..]);
      ParseCommandLine(cmds[0]);
      ParseCommandLines(cmds[1..]);
      ParseCommandsCons(l, cmds[0], cmds[1..]);
      assert [cmds[0]] + cmds[1..] == cmds;
    }
  }

  /** Any list of quotable commands, written as a script, reads back as itself. */
  lemma ScriptOfRoundTrip(cmds: seq<Command>)
    requires forall i :: 0 <= i < |cmds| ==> QuotableCommand(cmds[i])
    ensures ParseScript(ScriptOf(cmds)) == Some(cmds)
  {
    forall i | 0 <= i < |cmds|
      ensures '\n' !in CommandLines(cmds)[i]
    {
      CommandLineOneLine(cmds[i]);
    }
    SplitLines(CommandLines(cmds));
    var lines := CommandLines(cmds) + [""];
    assert lines[..|lines| - 1] == CommandLines(cmds);
    ParseCommandLines(cmds);
  }

  // ---------------------------------------------------------------------
  // The update script is the plan
  // ---------------------------------------------------------------------

  lemma KillLine(x: string)
    ensures CommandLine(KillImage(x)) == "taskkill /f /im \"" + x + "\" >nul 2>&1"
  {
    var q := "\"" + x + "\"";
    assert "taskkill /f /im \"" == "taskkill" + " " + "/f /im " + "\"";
    calc {
      CommandLine(KillImage(x));
      "taskkill" + " " + ("/f /im " + q + " >nul 2>&1");
      "taskkill" + " " + "/f /im " + q + " >nul 2>&1";
      "taskkill /f /im \"" + x + "\" >nul 2>&1";
    }
  }

  lemma MoveLine(src: string, dst: string)
    ensures CommandLine(MoveOver(src, dst)) == "move /y \"" + src + "\" \"" + dst + "\""
  {
  }

  lemma LaunchLine(p: string)
    ensures CommandLine(Launch(p)) == "start \"\" \"" + p + "\""
  {
  }

  lemma RemoveLine(d: string)
    ensures CommandLine(RemoveTree(d)) == "rmdir /s /q \"" + d + "\""
  {
  }

  lemma WaitLine()
    ensures CommandLine(Wait(3)) == "timeout /t 3 >nul"
  {
    assert NatToDigits(3) == "3";
  }

  /** The commands of the plan render as the script's lines, position by
      position. */
  lemma PlanLinesHead(newExe: string, currentExe: string, tempDir: string)
    ensures CommandLine(Plan(newExe, currentExe, tempDir)[0]) == ScriptLines(newExe, currentExe, tempDir)[0]
    ensures CommandLine(Plan(newExe, currentExe, tempDir)[1]) == ScriptLines(newExe, currentExe, tempDir)[1]
    ensures CommandLine(Plan(newExe, currentExe, tempDir)[6]) == ScriptLines(newExe, currentExe, tempDir)[6]
  {
    assert CommandLine(EchoOff) == "@echo off";
    WaitLine();
    assert CommandLine(DeleteSelf) == "del \"%~f0\"";
  }

  lemma PlanKillLine(newExe: string, currentExe: string, tempDir: string)
    ensures CommandLine(Plan(newExe, currentExe, tempDir)[2]) == ScriptLines(newExe, currentExe, tempDir)[2]
  {
    KillLine(Basename(currentExe));
  }

  lemma PlanMoveLine(newExe: string, currentExe: string, tempDir: string)
    ensures CommandLine(Plan(newExe, currentExe, tempDir)[3]) == ScriptLines(newExe, currentExe, tempDir)[3]
  {
    MoveLine(newExe, currentExe);
  }

  lemma PlanLaunchLine(newExe: string, currentExe: string, tempDir: string)
    ensures CommandLine(Plan(newExe, currentExe, tempDir)[4]) == ScriptLines(newExe, currentExe, tempDir)[4]
  {
    LaunchLine(currentExe);
  }

  lemma PlanRemoveLine(newExe: string, currentExe: string, tempDir: string)
    ensures CommandLine(Plan(newExe, currentExe, tempDir)[5]) == ScriptLines(newExe, currentExe, tempDir)[5]
  {
    RemoveLine(tempDir);
  }

  lemma PlanLine(newExe: string, currentExe: string, tempDir: string, i: nat)
    requires i < 7
    ensures CommandLine(Plan(newExe, currentExe, tempDir)[i]) == ScriptLines(newExe, currentExe, tempDir)[i]
  {
    if i < 2 || i == 6 {
      PlanLinesHead(newExe, currentExe, tempDir);
    } else if i == 2 {
      PlanKillLine(newExe, currentExe, tempDir);
    } else if i == 3 {
      PlanMoveLine(newExe, currentExe, tempDir);
    } else if i == 4 {
      PlanLaunchLine(newExe, currentExe, tempDir);
    } else {
      PlanRemoveLine(newExe, currentExe, tempDir);
    }
  }

  lemma PlanCommandLines(newExe: string, currentExe: string, tempDir: string)
    ensures CommandLines(Plan(newExe, currentExe, tempDir)) == ScriptLines(newExe, currentExe, tempDir)
  {
    var l := CommandLines(Plan(newExe, currentExe, tempDir));
    var want := ScriptLines(newExe, currentExe, tempDir);
    forall i | 0 <= i < 7
      ensures l[i] == want[i]
    {
      PlanLine(newExe, currentExe, tempDir, i);
    }
  }

  lemma ScriptOfPlan(newExe: string, currentExe: string, tempDir: string)
    ensures ScriptOf(Plan(newExe, currentExe, tempDir)) == ScriptText(newExe, currentExe, tempDir)
  {
    PlanCommandLines(newExe, currentExe, tempDir);
  }

  lemma BasenameQuotable(p: string)
    requires Quotable(p)
    ensures Quotable(Basename(p))
    ensures NoPathSep(Basename(p)) && EndsWith(p, Basename(p))
  {
    var b := Basename(p);
    assert b == p[|p| - |b|..];
    assert forall i :: 0 <= i < |b| ==> b[i] == p[|p| - |b| + i];
  }

  lemma PlanQuotable(newExe: string, currentExe: string, tempDir: string)
    requires Quotable(newExe) && Quotable(currentExe) && Quotable(tempDir) && Quotable(Basename(currentExe))
    ensures forall i :: 0 <= i < 7 ==> QuotableCommand(Plan(newExe, currentExe, tempDir)[i])
  {
  }

  /** The update script runs, in this order: quiet output, a three-second wait,
      a forced kill of the running program by its file name alone, a move of the
      downloaded program over the running one, a start of the replaced program,
      a removal of the temporary directory, and the script's deletion of itself. */
  lemma ScriptRoundTrip(newExe: string, currentExe: string, tempDir: string)
    requires Quotable(newExe) && Quotable(currentExe) && Quotable(tempDir)
    ensures ParseScript(ScriptText(newExe, currentExe, tempDir))
         == Some([EchoOff, Wait(3), KillImage(Basename(currentExe)), MoveOver(newExe, currentExe),
                  Launch(currentExe), RemoveTree(tempDir), DeleteSelf])
    ensures NoPathSep(Basename(currentExe)) && EndsWith(currentExe, Basename(currentExe))
  {
    var p := Plan(newExe, currentExe, tempDir);
    BasenameQuotable(currentExe);
    PlanQuotable(newExe, currentExe, tempDir);
    ScriptOfPlan(newExe, currentExe, tempDir);
    ScriptOfRoundTrip(p);
  }

  // ---------------------------------------------------------------------
  // Running the update: the machine the program runs on
  // ---------------------------------------------------------------------

  /** What a file holds: downloaded bytes, or text written by the program. */
  datatype FileData = Bytes(data: seq<bv8>) | Written(text: string)

  /** The outcome of `requests.get(download_url, stream=True)` and of copying its
      body into the staged file: the request fails before the file is opened
      (no connection, an error status), the copy fails part way, or the whole
      body is copied. */
  datatype Transfer = RequestFailed(message: string) | StreamFailed(partial: seq<bv8>, message: string)
                    | Streamed(payload: seq<bv8>)

  /** The directories, files, downloads and processes of the machine. */
  datatype HostState = HostState(
    dirs: set<string>,
    files: map<string, FileData>,
    requests: seq<string>,
    launched: seq<seq<string>>)

  /** The result of one update attempt: the machine afterwards, whether the
      "downloading the update" line was logged, and the message of the error
      that ended it, if one did. */
  datatype UpdateResult = UpdateResult(host: HostState, logged: bool, failure: Option<string>)

  /** The command line that runs the script, detached from the program. */
  function ScriptCommand(tempDir: string): seq<string> {
    ["cmd.exe", "/c", ScriptPath(tempDir)]
  }

  /** `_perform_update`, step by step: make a temporary directory (`tempDir` is
      what `mkdtemp` gave or raised), log, download into the staged file, write
      the script, launch it (`launchError` is what `Popen` raised, if anything).
      The first step that raises ends the attempt with its message. */
  function RunUpdate(h: HostState, downloadUrl: string, tempDir: Attempt<string>, transfer: Transfer,
                     currentExe: string, launchError: Option<string>): UpdateResult
  {
    match tempDir
    case Raised(m) => UpdateResult(h, false, Some(m))
    case Ok(t) =>
      var h1 := h.(dirs := h.dirs + {t}, requests := h.requests + [downloadUrl]);
      match transfer
      case RequestFailed(m) => UpdateResult(h1, true, Some(m))
      case StreamFailed(partial, m) =>
        UpdateResult(h1.(files := h1.files[StagedPath(t) := Bytes(partial)]), true, Some(m))
      case Streamed(payload) =>
        var files := h1.files[StagedPath(t) := Bytes(payload)]
                             [ScriptPath(t) := Written(ScriptText(StagedPath(t), currentExe, t))];
        var h2 := h1.(files := files);
        match launchError
        case Some(m) => UpdateResult(h2, true, Some(m))
        case None => UpdateResult(h2.(launched := h2.launched + [ScriptCommand(t)]), true, None)
  }

  /** The update goes through exactly when every step does; then the program
      was downloaded into the staged file and the script launched once. */
  lemma UpdateSucceeds(h: HostState, downloadUrl: string, tempDir: Attempt<string>, transfer: Transfer,
                       currentExe: string, launchError: Option<string>)
    ensures var r := RunUpdate(h, downloadUrl, tempDir, transfer, currentExe, launchError);
      r.failure.None? <==> tempDir.Ok? && transfer.Streamed? && launchError.None?
    ensures var r := RunUpdate(h, downloadUrl, tempDir, transfer, currentExe, launchError);
      r.failure.None? ==>
        && r.host.launched == h.launched + [["cmd.exe", "/c", ScriptPath(tempDir.value)]]
        && r.host.requests == h.requests + [downloadUrl]
        && r.host.files[StagedPath(tempDir.value)] == Bytes(transfer.payload)
        && r.host.files[ScriptPath(tempDir.value)]
           == Written(ScriptText(StagedPath(tempDir.value), currentExe, tempDir.value))
  {
    if tempDir.Ok? {
      StagedFilesShareTempDir(tempDir.value);
    }
  }

  /** The script a successful update launches waits, stops the running program,
      moves the downloaded one over it, starts it and removes the temporary
      directory and itself. */
  lemma LaunchedScriptPlan(h: HostState, downloadUrl: string, t: string, payload: seq<bv8>, currentExe: string)
    requires Quotable(t) && Quotable(currentExe)
    ensures var r := RunUpdate(h, downloadUrl, Ok(t), Streamed(payload), currentExe, None);
      && r.host.files[ScriptPath(t)].Written?
      && ParseScript(r.host.files[ScriptPath(t)].text)
         == Some([EchoOff, Wait(3), KillImage(Basename(currentExe)), MoveOver(StagedPath(t), currentExe),
                  Launch(currentExe), RemoveTree(t), DeleteSelf])
  {
    UpdateSucceeds(h, downloadUrl, Ok(t), Streamed(payload), currentExe, None);
    StagedQuotable(t);
    ScriptRoundTrip(StagedPath(t), currentExe, t);
  }

  lemma StagedNameQuotable()
    ensures Quotable(STAGED_NAME)
  {
  }

  lemma StagedQuotable(t: string)
    requires Quotable(t)
    ensures Quotable(StagedPath(t))
  {
    StagedNameQuotable();
    if DirPrefix(t) != t {
      assert DirPrefix(t) == t + "\\";
    }
    assert StagedPath(t) == DirPrefix(t) + STAGED_NAME;
  }

  /** A failed update launches nothing, and its error is that of the first step
      that failed. */
  lemma UpdateFailure(h: HostState, downloadUrl: string, tempDir: Attempt<string>, transfer: Transfer,
                      currentExe: string, launchError: Option<string>)
    ensures var r := RunUpdate(h, downloadUrl, tempDir, transfer, currentExe, launchError);
      r.failure.Some? ==> r.host.launched == h.launched
    ensures var r := RunUpdate(h, downloadUrl, tempDir, transfer, currentExe, launchError);
      r.failure == if tempDir.Raised? then Some(tempDir.message)
                   else if !transfer.Streamed? then Some(transfer.message)
                   else launchError
  {
  }

  /** An update writes only directly inside the temporary directory it made:
      every file it creates or changes is that directory, a separator, and one
      of the two fixed names, which hold no separator. */
  lemma UpdateWritesOnlyInTempDir(h: HostState, downloadUrl: string, tempDir: Attempt<string>, transfer: Transfer,
                                  currentExe: string, launchError: Option<string>)
    ensures var r := RunUpdate(h, downloadUrl, tempDir, transfer, currentExe, launchError);
      forall p :: p in r.host.files && (p !in h.files || r.host.files[p] != h.files[p]) ==>
        && tempDir.Ok?
        && (p == DirPrefix(tempDir.value) + STAGED_NAME || p == DirPrefix(tempDir.value) + SCRIPT_NAME)
    ensures tempDir.Ok? && tempDir.value != "" ==>
      && StartsWith(DirPrefix(tempDir.value), tempDir.value)
      && IsPathSep(DirPrefix(tempDir.value)[|DirPrefix(tempDir.value)| - 1])
      && NoPathSep(STAGED_NAME) && NoPathSep(SCRIPT_NAME)
  {
    if tempDir.Ok? {
      StagedFilesShareTempDir(tempDir.value);
    }
  }

  /** The machine: a class whose fields the update changes in place. */
  class Host {
    var dirs: set<string>
    var files: map<string, FileData>
    var requests: seq<string>
    var launched: seq<seq<string>>

    constructor ()
      ensures State() == HostState({}, map[], [], [])
    {
      dirs, files, requests, launched := {}, map[], [], [];
    }

    function State(): HostState
      reads this
    {
      HostState(dirs, files, requests, launched)
    }

    /** `tempfile.mkdtemp()` once it has produced `dir`. */
    method MakeDir(dir: string)
      modifies this
      ensures State() == old(State()).(dirs := old(dirs) + {dir})
    {
      dirs := dirs + {dir};
    }

    /** `requests.get(url, ...)` as issued. */
    method Request(url: string)
      modifies this
      ensures State() == old(State()).(requests := old(requests) + [url])
    {
      requests := requests + [url];
    }

    /** `open(path, ...)` and writing `data` into it. */
    method WriteFile(path: string, data: FileData)
      modifies this
      ensures State() == old(State()).(files := old(files)[path := data])
    {
      files := files[path := data];
    }

    /** `subprocess.Popen(argv, creationflags=DETACHED_PROCESS)` once it succeeded. */
    method Spawn(argv: seq<string>)
      modifies this
      ensures State() == old(State()).(launched := old(launched) + [argv])
    {
      launched := launched + [argv];
    }
  }
}
