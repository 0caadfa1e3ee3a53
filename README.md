# YouTube downloader: a verified model of its core

The repository holds five versions of one Tk desktop program that downloads
a YouTube video (mp4) or its sound track (mp3) through yt-dlp: `main.py`
(the released one, with a thumbnail preview and a self-update), `yt3.py`,
`yt2.py`, `yt1.py` and `yt.py` (earlier versions). This project models what
the five do apart from drawing windows and talking to the network. It
covers:

- the yt-dlp logger that writes into the log widget;
- the option dictionaries handed to yt-dlp, and the format selector each
  version builds for a quality label;
- the progress hooks and the calls they schedule on the UI thread;
- the single-download guard and the status and log messages;
- the thumbnail URL lookup;
- `main.py`'s startup update check: version tuples, tag stripping, choice
  of the `.exe` asset;
- `main.py`'s update installer: the staged files and the batch script.

Layout, one module per file:

- `text.dfy` (`Text`): the Python string and path functions the core
  relies on (`split`, `join`, `lstrip`, `strip`, `lower`, `upper`,
  `str(int)`, `os.path.join`, `os.path.basename`).
- `version.dfy` (`Version`): `_version_tuple` and Python's tuple order.
- `update_check.dfy` (`UpdateCheck`): `_check_for_update` as a decision
  on what the release feed returned.
- `installer.dfy` (`Installer`): `_perform_update`.
  - The batch script is given as text and as a list of commands, and a
    reader of the text recovers the list.
  - `Host` is the machine whose directories, files, downloads and
    processes the update changes.
- `selector.dfy` (`FormatSelector`): the part of yt-dlp's format selector
  syntax the programs use (`/` alternatives, `+` merges, `[height<=N]` and
  `[ext=E]` filters), with a reader that inverts the writer.
- `options.dfy` (`Options`): the options record, the label-to-height map,
  and the alternatives shared by the versions.
- `gui.dfy` (`Gui`): the log widget, the filtering `GuiLogger`, the
  progress hook's dispatch, and the records for dialogs, deferred calls and
  download jobs.
- `main_app.dfy`, `yt3_app.dfy`, `yt2_app.dfy`, `yt1_app.dfy`,
  `yt_app.dfy`: each version's application object, as a class whose fields
  the methods update.
  - `active` and `job` stand for the download thread.
  - `pending` holds the calls handed to `root.after`, in order.
  - `dialogs` records the message boxes and windows opened.
  - What the outside world returned (the URL entry, the folder dialog,
    yt-dlp's outcome, the feed) is a parameter.
- `variants.dfy` (`Variants`): how the versions differ on the same input.

`main.py`'s update check compares version tuples the way Python compares
tuples: the first differing component decides, and a proper prefix is
smaller. No component is padded with zeros, so "1.0" is older than
"1.0.0" (`Version.ProperPrefixIsLess`).

The error callbacks that `main.py` and `yt3.py` hand to `root.after`
inside an `except ... as e:` block read `e` only when the UI thread runs
them, after Python has unbound the name (see "## Findings"). The
application classes schedule these callbacks as written: a `Raising`
call that raises NameError and makes none of the intended calls. The
`...Corrected` lemmas state what the callbacks do once the message is
bound when they are made.

## Model

| member | source | states |
|---|---|---|
| Gui.LogText.Insert | main.py:55-59 | inserting appends exactly one chunk with its text and tag; nothing shown is removed |
| Gui.LogText.Clear | main.py:271-273 | deleting from "1.0" to the end leaves the log empty |
| Gui.LoggedEntries | main.py:42-53 | the logger inserts at most one chunk per message; it inserts none exactly for a debug message starting with "[debug] " |
| Gui.LoggedReadsBack | main.py:42-53 | every inserted chunk reads back as the unchanged message at its shown level: a warning's or error's tag and prefix identify it, and a passing debug message shows as information |
| Gui.GuiLogger.Debug | main.py:42-44 | a debug message starting with "[debug] " is dropped; any other is forwarded to info |
| Gui.GuiLogger.Info | main.py:46-47 | appends the message and a line end, untagged |
| Gui.GuiLogger.Warning | main.py:49-50 | appends "[WARNING] " + message + line end, tagged "warning" |
| Gui.GuiLogger.Error | main.py:52-53 | appends "[ERROR] " + message + line end, tagged "error" |
| Gui.GuiLogger.TextInsert | main.py:55-59 | appends one chunk to the widget the logger was built with |
| Gui.HookDispatch | main.py:329-334 | while downloading, the hook schedules exactly one progress update carrying the record's percent text, or "0%" without one; when finished, exactly one success line; for any other status, nothing |
| Gui.StartEntriesShape | main.py:275-277 | a started download leaves one success line, plus an info line naming the quality exactly when a non-empty quality was given; the busy warning is not among them |
| Text.Lower | main.py:349 | same length; every character is mapped to lower case one for one |
| Text.Upper | main.py:275 | same length; every character is mapped to upper case one for one |
| Text.Split | main.py:357 | at least one piece, and no piece contains the separator |
| Text.JoinSplit | main.py:357 | joining the pieces of a split with the separator gives the string back |
| Text.SplitJoin | main.py:357 | splitting a join of separator-free pieces gives the pieces back |
| Text.LStrip | main.py:347 | the result is a suffix of the input; everything removed is the stripped character; the result does not start with it |
| Text.TrimStart | main.py:181 | the result is a suffix; everything removed is whitespace; the result does not start with whitespace |
| Text.TrimEnd | main.py:181 | the result is a prefix; everything removed is whitespace; the result does not end with whitespace |
| Text.StripEmpty | main.py:181-182 | a URL entry strips to nothing exactly when every character of it is whitespace |
| Text.NatToDigits | main.py:294 | the decimal form of a height is a non-empty run of digits |
| Text.DigitsRoundTrip | main.py:294 | reading back the decimal form of n gives n |
| Text.DirPrefix | main.py:371 | the joined prefix starts with the directory and ends with a separator, unless it is empty |
| Text.Basename | main.py:386 | the basename is a suffix of the path without separators, preceded by a separator when it is not the whole path |
| Text.BasenameAfterSep | main.py:386 | the basename of a directory prefix followed by a plain name is that name |
| Text.JoinedPath | main.py:371 | a name joined onto a directory keeps the name as its basename, and the result starts with the directory |
| Version.ParseSegment | main.py:357 | a segment converts exactly when it is a non-empty run of digits |
| Version.ParseSegments | main.py:357 | the conversion succeeds exactly when every segment converts, with one component per segment in order |
| Version.VersionTupleRender | main.py:356-357 | parsing the dotted decimal form of a tuple gives the tuple back |
| Version.VersionTupleDefined | main.py:356-357 | `_version_tuple` succeeds exactly on digits separated by single dots |
| Version.VersionTupleRejects | main.py:356-357 | "1..0", "1.x" and "" do not parse |
| Version.TupleLessIsLexLess | main.py:348 | tuple comparison agrees with a reference definition: a common prefix followed by a smaller component, or a proper prefix |
| Version.TupleLessIrreflexive | main.py:348 | no tuple is newer than itself |
| Version.TupleLessTransitive | main.py:348 | the order is transitive |
| Version.TupleLessTotal | main.py:348 | two distinct tuples are ordered one way, never both |
| Version.ProperPrefixIsLess | main.py:348 | a proper prefix is older, so (1, 0) < (1, 0, 0) |
| Version.SameTupleNotNewer | main.py:348 | a version is never newer than one that parses to the same tuple |
| Version.VersionTupleOneZeroZero | main.py:22 | the running version "1.0.0" reads as (1, 0, 0) |
| UpdateCheck.SelectAsset | main.py:349 | a selected asset has an ".exe" name, in any letter case, and every earlier asset has a non-exe name; no match exactly when every asset has a non-exe name; a missing name reached by the search is reported |
| UpdateCheck.FirstExeIsSelected | main.py:349 | if asset i is the first `.exe` asset, the search selects exactly i |
| UpdateCheck.Decide | main.py:342-354 | a prompt carries the tag with its leading 'v's stripped, and that version is newer than the running one |
| UpdateCheck.DecideCharacterisation | main.py:342-354 | the prompt shows version v and URL u if and only if: the feed was read; its stripped tag is v and newer; and the first `.exe` asset, with every earlier asset named, has URL u |
| UpdateCheck.EqualVersionNeverPrompts | main.py:348 | a tag that reads as the running version never prompts |
| UpdateCheck.NoExeAssetNeverPrompts | main.py:349-350 | a release whose assets all have non-exe names never prompts |
| UpdateCheck.CapitalVTagNeverPrompts | main.py:347 | only lower-case 'v' is stripped: a tag starting with "V" never prompts |
| UpdateCheck.UpperCaseExeName | main.py:349 | a name ending in ".EXE" counts as an `.exe` |
| UpdateCheck.PatchReleaseIsNewer | main.py:348 | "1.0.1" is newer than "1.0.0", and not the reverse |
| UpdateCheck.PatchTagStripped | main.py:347 | "v1.0.1" is stripped to "1.0.1" |
| UpdateCheck.NewerReleaseExample | main.py:342-354 | a "v1.0.1" release with one ".EXE" asset prompts with "1.0.1" and that asset's URL |
| Installer.StagedFilesShareTempDir | main.py:370-380 | the downloaded program and the script lie in the temporary directory under their fixed names, under the same directory prefix, and are different files |
| Installer.KillLine | main.py:386 | the kill command's line is `taskkill /f /im "<name>" >nul 2>&1` |
| Installer.MoveLine | main.py:387 | the move command's line is `move /y "<new>" "<current>"` |
| Installer.LaunchLine | main.py:388 | the launch command's line is `start "" "<current>"` |
| Installer.RemoveLine | main.py:389 | the removal command's line is `rmdir /s /q "<temp dir>"` |
| Installer.WaitLine | main.py:385 | the wait command's line is `timeout /t 3 >nul` |
| Installer.ScriptOfPlan | main.py:384-391 | the script text written is exactly the plan's commands, one per line |
| Installer.ScriptOfRoundTrip | main.py:384-391 | reading back a script written from quotable commands gives the commands back |
| Installer.ScriptRoundTrip | main.py:384-391 | for paths without quotes or line ends, the script reads back as: echo off, wait 3 s, kill the program by its file name alone, move the new program over it, start it, remove the temporary directory, delete the script |
| Installer.UpdateSucceeds | main.py:368-397 | the update completes exactly when the temporary directory, the download and the launch all succeed; then the download is requested once, the staged file holds the payload, the script holds the script text, and `cmd.exe /c <script>` is launched once |
| Installer.UpdateFailure | main.py:368-397 | a failed update launches nothing, and its error is that of the first failing step |
| Installer.UpdateWritesOnlyInTempDir | main.py:370-391 | every file the update creates or changes is the temporary directory it made, a separator, and one of the two fixed separator-free names, so it lies directly inside that directory |
| Installer.LaunchedScriptPlan | main.py:368-393 | the script a successful update writes reads back as the plan, with the staged file moved over the running program |
| Installer.Host.MakeDir | main.py:370 | adds the directory and changes nothing else |
| Installer.Host.Request | main.py:375 | records one request for the URL and changes nothing else |
| Installer.Host.WriteFile | main.py:377-378 | sets the file's content and changes nothing else |
| Installer.Host.Spawn | main.py:393 | records one launched command line and changes nothing else |
| FormatSelector.SelectorRoundTrip | main.py:294 | reading a written selector with plain words gives back the same alternatives |
| FormatSelector.AlternativeRoundTrip | main.py:294 | an alternative, single or merged with `+`, reads back as itself and contains no `/` |
| FormatSelector.FiltersRoundTrip | main.py:294 | a run of bracketed filters reads back as the same filters |
| FormatSelector.HeightCap | main.py:294 | the cap is present exactly when some filter is a height filter, and it is the limit of such a filter |
| Options.OutputTemplate | main.py:297 | the output template lies in the chosen folder and its basename is "%(title)s.%(ext)s" |
| Options.HeightFor | main.py:292-293 | a height is found exactly for "360p", "480p", "720p" and "1080p", and the label is the height's digits followed by "p"; the "best" label, any other label and no label give none |
| Options.HeightCapOf | main.py:294 | the height-limited formats carry exactly the chosen limit, and none without one |
| Options.UnlimitedFormatMeaning | yt1.py:190 | the fixed selector reads as: merged mp4 video and m4a audio, else the best single mp4 file, else any file |
| Options.AudioOptionsMeaning | main.py:302-310 | audio: the best audio-only file, else any file; mp3 extraction at quality 192; in the chosen folder under the title; no merge format and no playlist setting |
| MainApp.VideoFormatMeaning | main.py:291-294 | the selector reads as the merged alternative under the label's height, else any file; with a height label it is the f-string with the label's digits; otherwise it is the unlimited string |
| MainApp.DownloadOptionsMeaning | main.py:287-310 | video mode: that selector, mp4 merge, no playlist, no postprocessors. Any other mode: the audio options, whatever the quality. Both: the chosen folder, named after the title |
| MainApp.ThumbUrl | main.py:198 | a non-empty `thumbnail` wins; otherwise the first element's URL, or "" when the list is missing or empty; it never raises |
| MainApp.FetchOutcome | main.py:194-210 | the format window is scheduled exactly when extraction succeeded, and last, after the thumbnail call; a failed extraction schedules only a callback that raises NameError, so nothing is logged and neither the thumbnail text nor the status changes |
| MainApp.FetchErrorCallbackAsWritten | main.py:205-210 | as written, the error callback raises NameError before any of its calls |
| MainApp.FetchErrorCallbackCorrected | main.py:205-210 | with the message bound, the callback logs it as an error, marks the thumbnail and sets the error status |
| MainApp.DownloadErrorCallbackAsWritten | main.py:323-327 | as written, the download error callback raises NameError, so the failure is neither logged nor shown |
| MainApp.DownloadErrorCallbackCorrected | main.py:323-327 | with the message bound, the error is logged and shown, and no success call is among its calls |
| MainApp.App.constructor | main.py:63-152 | empty log, initial status and thumbnail text, progress 0 and "0%", no download thread, nothing pending, no dialog; the update-check thread of `check_update_on_start` is started |
| MainApp.App.Log | main.py:154-158 | appends the message on its own line with the tag |
| MainApp.App.StartProcess | main.py:180-192 | an entry that strips to nothing opens the warning box and changes nothing else; otherwise the stripped URL is logged, the status, progress and thumbnail text are reset, and an info thread is started for it |
| MainApp.App.AcceptUrl | main.py:186-192 | the accepted branch: the log line, the reset fields and the started info thread |
| MainApp.App.FetchInfoAndThumb | main.py:194-210 | schedules exactly the calls FetchCalls gives for the extraction's outcome: the thumbnail call and the format window, or on failure the callback that raises NameError |
| MainApp.App.AskFolderAndDownload | main.py:256-264 | a cancelled folder dialog logs a warning and sets "Bekor qilindi" without starting anything; otherwise as StartDownload |
| MainApp.App.StartDownload | main.py:266-285 | while a download runs, one warning line and nothing else; otherwise the log is cleared to the start lines, the status is "Yuklanmoqda..." and the thread runs with these arguments |
| MainApp.App.DownloadTask | main.py:287-327 | returns the options for the mode, folder and quality; schedules the success calls, or on failure only a callback that raises NameError, so the failure is neither logged nor shown; the thread ends |
| MainApp.App.MyHook | main.py:329-334 | schedules exactly the hook's calls, with "Fayl yuklandi → post-processing..." as the finished line |
| MainApp.App.CheckForUpdate | main.py:342-354 | schedules the prompt exactly when the decision is a prompt, and nothing on any failure; the update-check thread ends |
| MainApp.App.PerformUpdate | main.py:368-397 | the machine, the log line and the error box follow the step-by-step update; the app quits exactly when the script was launched |
| MainApp.App.ShowUpdatePromptBox | main.py:359-366 | the yes/no box is shown with the new version and the channel; "no" changes nothing else; "yes" runs the update |
| Yt3App.VideoFormatParses | yt3.py:248-252 | the selector reads as: the merged alternative under the label's height, else the best single mp4 file, else any file |
| Yt3App.VideoFormatMeaning | yt3.py:248-252 | the selector reads as above and always ends in "/best[ext=mp4]/best"; without a height it is the fixed unlimited selector |
| Yt3App.FallbacksLast | yt3.py:252 | the appended fallbacks end the selector |
| Yt3App.DownloadOptionsMeaning | yt3.py:244-269 | video: that selector, mp4 merge, no playlist; audio: best audio then any file, mp3 at 192; both in the chosen folder under the title |
| Yt3App.ThumbUrl | yt3.py:154 | raises IndexError exactly when `thumbnail` is false and `thumbnails` is an empty list; a non-empty `thumbnail` wins; a missing list gives "" |
| Yt3App.FetchOutcome | yt3.py:150-166 | the format window is scheduled exactly when extraction succeeded and the lookup did not raise; otherwise, an empty list with no thumbnail included, the only call scheduled is a callback that raises NameError, so nothing is logged and the status stays |
| Yt3App.FetchErrorCallbackAsWritten | yt3.py:161-166 | as written, the error callback raises NameError before any of its calls |
| Yt3App.FetchErrorCallbackCorrected | yt3.py:161-166 | with the message bound, the callback logs it, marks the thumbnail and sets "Xato yuz berdi" |
| Yt3App.App.constructor | yt3.py:35-102 | empty log, initial status, thumbnail text "Thumbnail yuklanmoqda...", progress 0 and "0%", no thread, nothing pending |
| Yt3App.App.Log | yt3.py:107-111 | appends the message on its own line with the tag |
| Yt3App.App.StartProcess | yt3.py:135-148 | an empty stripped entry opens the warning box and changes nothing else; otherwise the URL is logged, fields are reset and an info thread is started |
| Yt3App.App.AcceptUrl | yt3.py:141-148 | the accepted branch of start_process |
| Yt3App.App.FetchInfoAndThumb | yt3.py:150-166 | schedules exactly the calls FetchCalls gives: the callback that raises NameError when the extraction or the lookup raises |
| Yt3App.App.AskFolderAndDownload | yt3.py:213-221 | a cancelled folder dialog logs a warning and sets "Bekor qilindi"; otherwise as StartDownload |
| Yt3App.App.StartDownload | yt3.py:223-242 | the single-download guard: a warning while busy; otherwise the cleared log, the start lines and the started thread |
| Yt3App.App.DownloadTask | yt3.py:244-282 | returns the options; on success logs "\n✅ Tayyor!" and sets "Yuklash yakunlandi ✓" from the thread itself, then schedules "100%"; on failure logs the error and sets "Xato yuz berdi"; the thread ends |
| Yt3App.App.MyHook | yt3.py:284-289 | schedules exactly the hook's calls, with "Fayl yuklandi → birlashtirilmoqda..." |
| Yt2App.VideoFormatMeaning | yt2.py:205-218 | with a height label, the selector reads as four alternatives: merged mp4 video and m4a audio under the limit; the best single mp4 file under the limit; the best single mp4 file; any file. Without one, it is the fixed three-alternative selector |
| Yt2App.LimitedFormatMeaning | yt2.py:216 | the height-limited f-string reads as the four-alternative chain, and both limited formats carry the height |
| Yt2App.UnlimitedChainMeaning | yt2.py:218 | the string without a height reads as the three-alternative chain |
| Yt2App.DownloadOptionsMeaning | yt2.py:201-235 | video: that chain, mp4 merge, no playlist; audio: best audio then any file, mp3 at 192; both in the chosen folder under the title |
| Yt2App.App.constructor | yt2.py:32-91 | empty log, initial status, progress 0 and "0%", no thread |
| Yt2App.App.Log | yt2.py:96-100 | appends the message on its own line with the tag |
| Yt2App.App.StartProcess | yt2.py:112-123 | an empty stripped entry opens the warning box and changes nothing else; otherwise the URL is logged, status "Format tanlanmoqda...", progress reset, and the format window opened for it |
| Yt2App.App.AcceptUrl | yt2.py:118-123 | the accepted branch of start_process |
| Yt2App.App.AskFolderAndDownload | yt2.py:170-178 | a cancelled folder dialog logs a warning and sets "Bekor qilindi"; otherwise as StartDownload |
| Yt2App.App.StartDownload | yt2.py:180-199 | the single-download guard, the cleared log with the start lines, and the started thread |
| Yt2App.App.DownloadTask | yt2.py:201-248 | returns the options; reports success or failure in the log and status line from the thread; schedules "100%" only on success; the thread ends |
| Yt2App.App.MyHook | yt2.py:250-255 | schedules exactly the hook's calls |
| Yt1App.DownloadOptionsMeaning | yt1.py:188-204 | video: the fixed three-alternative selector, mp4 merge, no playlist; audio as in every version; the chosen folder under the title |
| Yt1App.App.constructor | yt1.py:32-98 | empty log, initial status, progress 0 and "0%", no thread, no direct progress call |
| Yt1App.App.Log | yt1.py:103-107 | appends the message on its own line with the tag |
| Yt1App.App.StartProcess | yt1.py:119-130 | an empty stripped entry opens the warning box and changes nothing else; otherwise the URL is logged, progress reset and the format window opened |
| Yt1App.App.AcceptUrl | yt1.py:125-130 | the accepted branch of start_process |
| Yt1App.App.AskFolderAndDownload | yt1.py:153-163 | a cancelled folder dialog logs a warning, sets "Yuklash bekor qilindi" and resets the progress to 0 and "0%"; otherwise the progress is untouched and StartDownload runs with no quality |
| Yt1App.App.StartDownload | yt1.py:165-182 | the single-download guard; otherwise the cleared log holds only the start line |
| Yt1App.App.DownloadTask | yt1.py:184-217 | returns the options; on success logs, sets "Tayyor ✓" and calls update_progress("100%") directly from the thread; on failure logs the error and sets "Xato yuz berdi" |
| Yt1App.App.MyHook | yt1.py:219-224 | schedules exactly the hook's calls, with "Fayl yuklandi → post-processing..." |
| YtApp.VerboseNeverDrops | yt.py:13-26 | the logger inserts exactly one chunk per message, which reads back as the message; it differs from the other versions' logger exactly on debug messages starting with "[debug] " |
| YtApp.VerboseLogger.Debug | yt.py:13-17 | both branches insert the message untagged |
| YtApp.VerboseLogger.Info | yt.py:19-20 | appends the message untagged |
| YtApp.VerboseLogger.Warning | yt.py:22-23 | appends the "[WARNING] " line tagged "warning" |
| YtApp.VerboseLogger.Error | yt.py:25-26 | appends the "[ERROR] " line tagged "error" |
| YtApp.VerboseLogger.TextInsert | yt.py:28-32 | appends one chunk to the bound widget |
| YtApp.DownloadOptionsMeaning | yt.py:151-168 | video: the fixed three-alternative selector and mp4 merge, with quiet and no_warnings False and no playlist setting; audio as in every version |
| YtApp.ProgressLineShape | yt.py:183-187 | the line is the percent ("?%" when absent), three spaces, the speed ("?" when absent), three spaces, "ETA: " and the ETA ("?" when absent), and nothing else |
| YtApp.App.constructor | yt.py:37-68 | empty log, initial status, no thread, no downloader bound |
| YtApp.App.Log | yt.py:71-75 | appends the message on its own line, untagged by default |
| YtApp.App.StartProcess | yt.py:77-87 | an empty stripped entry opens the warning box; otherwise "Link qabul qilindi: " + URL is logged and the format window opened |
| YtApp.App.AskFolderAndDownload | yt.py:111-126 | video and audio behave alike: a cancelled dialog logs a warning and sets "Yuklash bekor qilindi"; otherwise as StartDownload |
| YtApp.App.StartDownload | yt.py:128-145 | a warning while busy; otherwise the log is cleared to the start line, which carries its own extra line end |
| YtApp.App.DownloadTask | yt.py:147-180 | returns the options and binds them as the app's downloader; reports success or failure in the log and status line; the thread ends |
| YtApp.App.ProgressHook | yt.py:182-193 | while downloading, appends the progress line and "\r" untagged, straight into the log; when finished, one success line; otherwise nothing |
| Variants.SameFirstChoice | main.py:294 | main.py, yt3.py and yt2.py all prefer the merged mp4 alternative under the label's height, and fall back to any file last |
| Variants.UnlimitedSelectors | yt3.py:251-252 | without a height, yt3.py and yt2.py build exactly the fixed selector of yt1.py and yt.py; main.py's differs from it |
| Variants.LimitedSelectors | yt2.py:216 | with a height, yt2.py's chain is yt3.py's with the height-limited single mp4 file inserted second |
| Variants.ThumbnailLookupsAgree | yt3.py:154 | yt3.py's lookup gives main.py's URL whenever it does not raise; it raises exactly where main.py's gives "" because the list is empty |

## Left out

- The Tk user interface (layout, styles, images, message box and folder
  dialog rendering) is not modelled. What a dialog returns is a parameter,
  and the dialogs opened are recorded in `dialogs`.
- Threads and the event loop are not modelled. The download thread is
  the `active` flag and its `job`. A download task runs as one step at
  its end. Calls handed to `root.after` are recorded in `pending` and are
  not run.
- The network is left out (the release feed, the thumbnail image, the
  downloaded program). Its outcome is a parameter: `Feed`, `Transfer`, the
  info dictionary or the raised message.
- yt-dlp itself is left out (extraction, downloading, format selection
  among real streams). The model states the options record and the meaning
  of the selector string.
- `update_progress` and `show_thumbnail` are left out. They parse a float
  percentage and decode an image, and they swallow every error. The model
  records their calls only.
- `int()` leniency is left out: signs, surrounding whitespace,
  underscores, and decimal digits of other scripts (`int('١')` is 1). The model accepts digit runs only, which is all that version
  tags and heights use here.
- `str.lower` and `str.upper` map ASCII letters only.
- `os.path.join` and `os.path.basename` are modelled with `\` and `/` as
  separators. Drive-relative and UNC roots are left out.
- Python values of the wrong JSON type are not distinguished from
  missing keys (a `tag_name` that is not a string, say): both read as None.
- Yt3App.ThumbUrl: a `thumbnails` key that is present with value null
  makes yt3.py raise TypeError. The model reads null as a missing key,
  which gives "".
- A record without a `status` key makes `my_hook` raise KeyError inside
  yt-dlp. This is not modelled: `HookInfo` always has a status.
- The folder dialog's title is left out, because it changes nothing the
  program keeps.
- The `GuiLogger` handed to yt-dlp (`params['logger']`) is modelled as a
  class of its own. The messages yt-dlp sends it are not.
- YtApp.App.DownloadTask: `self.ydl` is bound only once `YoutubeDL(...)`
  is constructed. If the constructor raises, yt.py leaves the old value,
  but the model binds the options in every case.
- Installer.RunUpdate: a failure while writing the script file (disk
  full, permissions) is not a separate outcome. Only the temporary
  directory, the download and the launch can fail.
- Installer.RunUpdate: `open(bat_path, 'w')` writes in text mode, so on
  Windows each "\n" of the script reaches the disk as "\r\n". The file
  the model records holds the script text with "\n" line ends.
- The `ask_format` and `ask_video_quality` windows are recorded as opened
  (`FormatWindow`, `AskFormat`); the buttons inside them are not modelled.
  Their choices reach the model as the `mode` and `quality` arguments of
  `AskFolderAndDownload`.

## Findings

| source | as written | input that shows it | evidently intended | confidence | as-written member | corrected member |
|---|---|---|---|---|---|---|
| main.py:206-210 | the error lambda reads `e` after the `except` block has ended and unbound the name | any URL whose extraction raises, such as an invalid link | log "Ma'lumot olishda xato: <message>", mark the thumbnail, set "Xatolik yuz berdi" | high, not executed | MainApp.FetchErrorCallbackAsWritten | MainApp.FetchErrorCallbackCorrected |
| main.py:324-327 | the download error lambda reads `e` after the `except` block, so the callback raises NameError on the UI thread | any download that raises, such as a network failure | log "\n❌ Xato: <message>" and set "Xatolik yuz berdi" | high, not executed | MainApp.DownloadErrorCallbackAsWritten | MainApp.DownloadErrorCallbackCorrected |
| yt3.py:162-166 | same late read of `e` in the info thread's error callback | any URL whose extraction raises, or info with an empty `thumbnails` list and no `thumbnail` | log "Info olishda xato: <message>", mark the thumbnail, set "Xato yuz berdi" | high, not executed | Yt3App.FetchErrorCallbackAsWritten | Yt3App.FetchErrorCallbackCorrected |
