/** The options record every variant's `download_task` hands to yt-dlp, and
    the pieces the variants share: the output template, the height map of the
    quality dialog, the audio options, and the formats the selectors name. */
module Options {
  import opened Text
  import opened FormatSelector

  /** One entry of the `postprocessors` list. */
  datatype PostProcessor = PostProcessor(key: string, preferredCodec: string, preferredQuality: string)

  /** The options dictionary. A key the source does not set is None. */
  datatype YdlOptions = YdlOptions(
    format: string,
    outtmpl: string,
    mergeOutputFormat: Option<string>,
    noPlaylist: Option<bool>,
    quiet: Option<bool>,
    noWarnings: Option<bool>,
    postprocessors: Option<seq<PostProcessor>>)

  /** The file name template, relative to the chosen folder. */
  const OUTPUT_NAME: string := "%(title)s.%(ext)s"

  const AUDIO_FORMAT: string := "bestaudio/best"

  const MP3_EXTRACT: PostProcessor := PostProcessor("FFmpegExtractAudio", "mp3", "192")

  /** `os.path.join(out_folder, '%(title)s.%(ext)s')`: the files land in the
      chosen folder, named after the title. */
  function OutputTemplate(folder: string): (t: string)
    ensures Basename(t) == OUTPUT_NAME
    ensures StartsWith(t, folder)
  {
    assert NoPathSep(OUTPUT_NAME);
    JoinedPath(folder, OUTPUT_NAME);
    PathJoin(folder, OUTPUT_NAME)
  }

  /** The options of the audio branch, the same in every variant. */
  function AudioOptions(folder: string): YdlOptions {
    YdlOptions(AUDIO_FORMAT, OutputTemplate(folder), None, None, None, None, Some([MP3_EXTRACT]))
  }

  /** The options of the video branch shared by main.py, yt3.py, yt2.py and yt1.py:
      the files are merged into mp4 and a playlist URL fetches only the video. */
  function VideoOptions(format: string, folder: string): YdlOptions {
    YdlOptions(format, OutputTemplate(folder), Some("mp4"), Some(true), None, None, None)
  }

  /** The labels of the quality dialog that carry a height. */
  const HEIGHT_LABELS: seq<string> := ["360p", "480p", "720p", "1080p"]

  /** `height_map.get(quality)`: the four height labels map to their height; the
      "best" label of the dialog, any other label and no label map to None. */
  function HeightFor(quality: Option<string>): (h: Option<nat>)
    ensures h.Some? <==> quality.Some? && quality.value in HEIGHT_LABELS
    ensures h.Some? ==> h.value > 0 && quality.value == NatToDigits(h.value) + "p"
  {
    assert NatToDigits(360) == "360" && NatToDigits(480) == "480";
    assert NatToDigits(720) == "720" && NatToDigits(1080) == "1080";
    if quality == Some("360p") then Some(360)
    else if quality == Some("480p") then Some(480)
    else if quality == Some("720p") then Some(720)
    else if quality == Some("1080p") then Some(1080)
    else None
  }

  // ---------------------------------------------------------------------
  // Formats the selectors name
  // ---------------------------------------------------------------------

  function HeightFilters(h: Option<nat>): seq<Filter> {
    if h.Some? then [HeightAtMost(h.value)] else []
  }

  /** `bestvideo[height<=h][ext=mp4]`, or `bestvideo[ext=mp4]` without a height. */
  function BestVideoMp4(h: Option<nat>): Format {
    Format("bestvideo", HeightFilters(h) + [ExtIs("mp4")])
  }

  /** `best[height<=h][ext=mp4]`, or `best[ext=mp4]` without a height. */
  function BestMp4(h: Option<nat>): Format {
    Format("best", HeightFilters(h) + [ExtIs("mp4")])
  }

  const BEST_AUDIO_M4A: Format := Format("bestaudio", [ExtIs("m4a")])

  /** `bestvideo[...]+bestaudio[ext=m4a]`: the preferred alternative of every video selector. */
  function MergedMp4(h: Option<nat>): Alternative {
    Merged(BestVideoMp4(h), BEST_AUDIO_M4A)
  }

  /** `best`: any single file. */
  const ANY_BEST: Alternative := Single(Format("best", []))

  /** `best[ext=mp4]`: the best single mp4 file. */
  const ANY_MP4: Alternative := Single(Format("best", [ExtIs("mp4")]))

  /** The selector of yt1.py and yt.py, and of yt2.py and yt3.py without a
      height limit. */
  const UNLIMITED_FORMAT: string := "bestvideo[ext=mp4]+bestaudio[ext=m4a]/best[ext=mp4]/best"

  /** The text of a height filter, empty without a height. */
  function CapText(h: Option<nat>): string {
    if h.Some? then "[height<=" + NatToDigits(h.value) + "]" else ""
  }

  lemma OneExtText(e: string)
    ensures FiltersText([ExtIs(e)]) == "[ext=" + e + "]"
  {
    assert [ExtIs(e)][1..] == [];
    assert FilterText(ExtIs(e)) == ['['] + ("ext=" + e) + [']'];
    assert ['['] + "ext=" == "[ext=";
  }

  lemma HeightFiltersText(h: Option<nat>)
    ensures FiltersText(HeightFilters(h) + [ExtIs("mp4")]) == CapText(h) + "[ext=mp4]"
  {
    var fs := HeightFilters(h) + [ExtIs("mp4")];
    OneExtText("mp4");
    if h.Some? {
      var d := NatToDigits(h.value);
      assert fs[0] == HeightAtMost(h.value);
      assert fs[1..] == [ExtIs("mp4")];
      assert FiltersText(fs) == FilterText(fs[0]) + FiltersText(fs[1..]);
      assert FilterText(fs[0]) == ['['] + ("height<=" + d) + [']'];
      assert ['['] + "height<=" == "[height<=";
    } else {
      assert fs == [ExtIs("mp4")];
    }
  }

  lemma MergedMp4Text(h: Option<nat>)
    ensures AlternativeText(MergedMp4(h)) == "bestvideo" + CapText(h) + "[ext=mp4]+bestaudio[ext=m4a]"
  {
    var c := CapText(h);
    HeightFiltersText(h);
    var v := FormatText(BestVideoMp4(h));
    assert v == "bestvideo" + (c + "[ext=mp4]");
    OneExtText("m4a");
    var au := FormatText(BEST_AUDIO_M4A);
    assert au == "bestaudio" + "[ext=m4a]";
    assert AlternativeText(MergedMp4(h)) == v + "+" + au;
    MergedLiteral(c);
  }

  lemma MergedLiteral(c: string)
    ensures "bestvideo" + (c + "[ext=mp4]") + "+" + ("bestaudio" + "[ext=m4a]")
         == "bestvideo" + c + "[ext=mp4]+bestaudio[ext=m4a]"
  {
  }

  /** The preferred alternative as the option builders spell it:
      `bestvideo[height<={h}][ext=mp4]+bestaudio[ext=m4a]`, or without the
      height filter. */
  function MergedPrefix(h: Option<nat>): string {
    if h.Some? then "bestvideo[height<=" + NatToDigits(h.value) + "][ext=mp4]+bestaudio[ext=m4a]"
    else "bestvideo[ext=mp4]+bestaudio[ext=m4a]"
  }

  lemma Regroup(a: string, b: string, c: string, d: string, e: string)
    ensures a + (b + c + d) + e == (a + b) + c + (d + e)
  {
  }

  lemma OpenHeightLiteral()
    ensures "bestvideo" + "[height<=" == "bestvideo[height<="
  {
  }

  lemma CloseHeightLiteral()
    ensures "]" + "[ext=mp4]+bestaudio[ext=m4a]" == "][ext=mp4]+bestaudio[ext=m4a]"
  {
  }

  lemma UnlimitedMergedLiteral()
    ensures "bestvideo" + "[ext=mp4]+bestaudio[ext=m4a]" == "bestvideo[ext=mp4]+bestaudio[ext=m4a]"
  {
  }

  /** The spelled-out text is the text of the merged alternative. */
  lemma MergedPrefixText(h: Option<nat>)
    ensures AlternativeText(MergedMp4(h)) == MergedPrefix(h)
  {
    MergedMp4Text(h);
    if h.Some? {
      var d := NatToDigits(h.value);
      assert CapText(h) == "[height<=" + d + "]";
      Regroup("bestvideo", "[height<=", d, "]", "[ext=mp4]+bestaudio[ext=m4a]");
      OpenHeightLiteral();
      CloseHeightLiteral();
    } else {
      assert "bestvideo" + CapText(h) == "bestvideo";
      UnlimitedMergedLiteral();
    }
  }

  lemma BestMp4Text(h: Option<nat>)
    ensures AlternativeText(Single(BestMp4(h))) == "best" + CapText(h) + "[ext=mp4]"
  {
    HeightFiltersText(h);
  }

  lemma FormatsArePlain(h: Option<nat>)
    ensures PlainAlternative(MergedMp4(h)) && PlainAlternative(Single(BestMp4(h)))
    ensures PlainAlternative(ANY_BEST)
  {
    assert PlainWord("mp4") && PlainWord("m4a") && PlainWord("bestvideo");
    assert PlainWord("bestaudio") && PlainWord("best");
    var fs := HeightFilters(h) + [ExtIs("mp4")];
    assert forall i :: 0 <= i < |fs| ==> PlainFilter(fs[i]);
  }

  /** The height-limited formats carry exactly the given limit. */
  lemma HeightCapOf(h: Option<nat>)
    ensures HeightCap(BestVideoMp4(h).filters) == h
    ensures HeightCap(BestMp4(h).filters) == h
  {
    if h.Some? {
      assert HeightFilters(h) + [ExtIs("mp4")] == [HeightAtMost(h.value), ExtIs("mp4")];
    } else {
      assert HeightFilters(h) + [ExtIs("mp4")] == [ExtIs("mp4")];
      assert HeightCap([ExtIs("mp4")][1..]) == None;
    }
  }

  lemma AnyMp4Text()
    ensures AlternativeText(ANY_MP4) == "best[ext=mp4]"
  {
    OneExtText("mp4");
    assert "best" + "[ext=mp4]" == "best[ext=mp4]";
  }

  lemma UnlimitedTailLiteral()
    ensures "bestvideo[ext=mp4]+bestaudio[ext=m4a]" + "/" + "best[ext=mp4]" + "/" + "best" == UNLIMITED_FORMAT
  {
  }

  /** The unlimited selector reads as three alternatives: merged mp4 video and
      m4a audio, then the best single mp4 file, then any file. */
  lemma UnlimitedFormatMeaning()
    ensures ParseSelector(UNLIMITED_FORMAT) == Some([MergedMp4(None), ANY_MP4, ANY_BEST])
  {
    JoinThree(MergedMp4(None), ANY_MP4, ANY_BEST);
    MergedPrefixText(None);
    AnyMp4Text();
    assert AlternativeText(ANY_BEST) == "best";
    UnlimitedTailLiteral();
    FormatsArePlain(None);
    assert PlainWord("best") && PlainWord("mp4");
    assert PlainAlternative(ANY_MP4);
    SelectorRoundTrip([MergedMp4(None), ANY_MP4, ANY_BEST]);
  }

  /** A selector of two or more alternatives: the first one's text, a slash,
      then the rest's selector. */
  lemma SelectorCons(a: Alternative, rest: seq<Alternative>)
    requires rest != []
    ensures SelectorText([a] + rest) == AlternativeText(a) + "/" + SelectorText(rest)
  {
    assert ([a] + rest)[1..] == rest;
    assert AlternativeTexts([a] + rest) == [AlternativeText(a)] + AlternativeTexts(rest);
    JoinCons(AlternativeText(a), AlternativeTexts(rest), '/');
  }

  lemma JoinTwo(a: Alternative, b: Alternative)
    ensures SelectorText([a, b]) == AlternativeText(a) + "/" + AlternativeText(b)
  {
    assert [a, b] == [a] + [b];
    SelectorCons(a, [b]);
    assert AlternativeTexts([b]) == [AlternativeText(b)];
  }

  lemma JoinThree(a: Alternative, b: Alternative, c: Alternative)
    ensures SelectorText([a, b, c]) == AlternativeText(a) + "/" + AlternativeText(b) + "/" + AlternativeText(c)
  {
    assert [a, b, c] == [a] + [b, c];
    SelectorCons(a, [b, c]);
    JoinTwo(b, c);
  }

  lemma JoinFour(a: Alternative, b: Alternative, c: Alternative, d: Alternative)
    ensures SelectorText([a, b, c, d])
         == AlternativeText(a) + "/" + AlternativeText(b) + "/" + AlternativeText(c) + "/" + AlternativeText(d)
  {
    assert [a, b, c, d] == [a] + [b, c, d];
    SelectorCons(a, [b, c, d]);
    JoinThree(b, c, d);
    SlashAssoc(AlternativeText(a), AlternativeText(b), AlternativeText(c), AlternativeText(d));
  }

  lemma SlashAssoc(a: string, b: string, c: string, d: string)
    ensures a + "/" + (b + "/" + c + "/" + d) == a + "/" + b + "/" + c + "/" + d
  {
  }

  /** The audio options: the best audio-only file, else the best file; written
      into the chosen folder under the title; converted to mp3 at quality 192;
      no merge format and no playlist setting. */
  lemma AudioOptionsMeaning(folder: string)
    ensures ParseSelector(AudioOptions(folder).format)
         == Some([Single(Format("bestaudio", [])), ANY_BEST])
    ensures Basename(AudioOptions(folder).outtmpl) == OUTPUT_NAME
    ensures StartsWith(AudioOptions(folder).outtmpl, folder)
    ensures AudioOptions(folder).postprocessors == Some([PostProcessor("FFmpegExtractAudio", "mp3", "192")])
    ensures AudioOptions(folder).mergeOutputFormat.None? && AudioOptions(folder).noPlaylist.None?
  {
    var alts := [Single(Format("bestaudio", [])), ANY_BEST];
    JoinTwo(alts[0], alts[1]);
    assert AlternativeText(alts[0]) == "bestaudio" && AlternativeText(alts[1]) == "best";
    assert PlainWord("bestaudio") && PlainWord("best");
    assert SelectorText(alts) == AUDIO_FORMAT;
    SelectorRoundTrip(alts);
  }
}
