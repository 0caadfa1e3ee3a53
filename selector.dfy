/** The part of yt-dlp's format-selector language the download options use:
    alternatives separated by '/', each a single format or a video format
    merged with an audio format by '+', each format a name followed by
    bracketed filters `[height<=N]` or `[ext=E]`. The selector strings of the
    option builders are read through this structure. */
module FormatSelector {
  import opened Text

  datatype Filter = HeightAtMost(limit: nat) | ExtIs(ext: string)

  datatype Format = Format(name: string, filters: seq<Filter>)

  datatype Alternative = Single(format: Format) | Merged(video: Format, audio: Format)

  // ---------------------------------------------------------------------
  // Writing a selector
  // ---------------------------------------------------------------------

  /** What goes between the brackets of a filter. */
  function FilterBody(f: Filter): string {
    match f
    case HeightAtMost(n) => "height<=" + NatToDigits(n)
    case ExtIs(e) => "ext=" + e
  }

  function FilterText(f: Filter): string {
    ['['] + FilterBody(f) + [']']
  }

  function FiltersText(fs: seq<Filter>): string {
    if fs == [] then "" else FilterText(fs[0]) + FiltersText(fs[1..])
  }

  function FormatText(f: Format): string {
    f.name + FiltersText(f.filters)
  }

  function AlternativeText(a: Alternative): string {
    match a
    case Single(f) => FormatText(f)
    case Merged(v, au) => FormatText(v) + "+" + FormatText(au)
  }

  function AlternativeTexts(alts: seq<Alternative>): (texts: seq<string>)
    ensures |texts| == |alts|
    ensures forall i :: 0 <= i < |alts| ==> texts[i] == AlternativeText(alts[i])
  {
    if alts == [] then [] else [AlternativeText(alts[0])] + AlternativeTexts(alts[1..])
  }

  function SelectorText(alts: seq<Alternative>): string {
    Join(AlternativeTexts(alts), '/')
  }

  // ---------------------------------------------------------------------
  // Reading a selector
  // ---------------------------------------------------------------------

  function ParseFilter(body: string): Option<Filter> {
    match StripPrefix(body, "height<=")
    case Some(d) => if d != [] && AllDigits(d) then Some(HeightAtMost(DigitsValue(d))) else None
    case None =>
      match StripPrefix(body, "ext=")
      case Some(e) => Some(ExtIs(e))
      case None => None
  }

  function ParseFilters(s: string): Option<seq<Filter>>
    decreases |s|
  {
    if s == [] then Some([])
    else if s[0] != '[' then None
    else match SplitFirst(s[1..], ']')
      case None => None
      case Some((body, rest)) =>
        match ParseFilter(body)
        case None => None
        case Some(f) =>
          match ParseFilters(rest)
          case None => None
          case Some(fs) => Some([f] + fs)
  }

  /** The name runs up to the first '['; the filters follow it. */
  function ParseFormat(s: string): Option<Format> {
    match SplitFirst(s, '[')
    case None => Some(Format(s, []))
    case Some((name, rest)) =>
      match ParseFilters(['['] + rest)
      case None => None
      case Some(fs) => Some(Format(name, fs))
  }

  function ParseAlternative(s: string): Option<Alternative> {
    var parts := Split(s, '+');
    if |parts| == 1 then
      match ParseFormat(parts[0])
      case None => None
      case Some(f) => Some(Single(f))
    else if |parts| == 2 then
      match (ParseFormat(parts[0]), ParseFormat(parts[1]))
      case (Some(v), Some(au)) => Some(Merged(v, au))
      case _ => None
    else None
  }

  function ParseAlternatives(parts: seq<string>): (r: Option<seq<Alternative>>)
    ensures r.Some? ==> |r.value| == |parts|
  {
    if parts == [] then Some([])
    else match (ParseAlternative(parts[0]), ParseAlternatives(parts[1..]))
      case (Some(a), Some(rest)) => Some([a] + rest)
      case _ => None
  }

  function ParseSelector(s: string): Option<seq<Alternative>> {
    ParseAlternatives(Split(s, '/'))
  }

  // ---------------------------------------------------------------------
  // Round trip
  // ---------------------------------------------------------------------

  /** A name or extension that the selector syntax cannot misread. */
  predicate PlainWord(s: string) {
    forall i :: 0 <= i < |s| ==> s[i] != '/' && s[i] != '+' && s[i] != '[' && s[i] != ']'
  }

  predicate PlainFilter(f: Filter) {
    f.ExtIs? ==> PlainWord(f.ext)
  }

  predicate PlainFormat(f: Format) {
    PlainWord(f.name) && forall i :: 0 <= i < |f.filters| ==> PlainFilter(f.filters[i])
  }

  predicate PlainAlternative(a: Alternative) {
    match a
    case Single(f) => PlainFormat(f)
    case Merged(v, au) => PlainFormat(v) && PlainFormat(au)
  }

  /** A selector has at least one alternative, and all of its words are plain. */
  predicate WellFormedSelector(alts: seq<Alternative>) {
    |alts| >= 1 && forall i :: 0 <= i < |alts| ==> PlainAlternative(alts[i])
  }

  /** The characters that separate formats never occur inside one. */
  predicate NoSelectorPunct(s: string) {
    forall i :: 0 <= i < |s| ==> s[i] != '/' && s[i] != '+'
  }

  lemma DigitsNoPunct(n: nat)
    ensures NoSelectorPunct(NatToDigits(n)) && PlainWord(NatToDigits(n))
  {
    var d := NatToDigits(n);
    assert forall i :: 0 <= i < |d| ==> IsDigit(d[i]);
  }

  lemma FilterBodyRoundTrip(f: Filter)
    requires PlainFilter(f)
    ensures ParseFilter(FilterBody(f)) == Some(f)
    ensures PlainWord(FilterBody(f))
  {
    match f
    case HeightAtMost(n) =>
      var d := NatToDigits(n);
      DigitsNoPunct(n);
      DigitsRoundTrip(n);
      StripPrefixAppend("height<=", d);
      var body := FilterBody(f);
      assert forall i :: 0 <= i < |body| ==> body[i] == if i < 8 then "height<="[i] else d[i - 8];
    case ExtIs(e) =>
      var body := FilterBody(f);
      StripPrefixAppend("ext=", e);
      assert !StartsWith(body, "height<=") by {
        assert body[0] == 'e';
      }
      assert forall i :: 0 <= i < |body| ==> body[i] == if i < 4 then "ext="[i] else e[i - 4];
  }

  /** A written filter followed by more text reads as that filter, then the rest. */
  lemma FilterThen(f: Filter, rest: string)
    requires PlainFilter(f)
    ensures ParseFilters(FilterText(f) + rest)
         == match ParseFilters(rest) case None => None case Some(fs) => Some([f] + fs)
  {
    var body := FilterBody(f);
    var s := FilterText(f) + rest;
    FilterBodyRoundTrip(f);
    assert s[0] == '[';
    assert s[1..] == body + [']'] + rest;
    assert ']' !in body by {
      assert forall i :: 0 <= i < |body| ==> body[i] != ']';
    }
    SplitFirstAt(body, rest, ']');
  }

  lemma FilterNoPunct(f: Filter)
    requires PlainFilter(f)
    ensures NoSelectorPunct(FilterText(f))
  {
    FilterBodyRoundTrip(f);
    var t := FilterText(f);
    assert forall i :: 1 <= i < |t| - 1 ==> t[i] == FilterBody(f)[i - 1];
  }

  lemma {:induction false} FiltersRoundTrip(fs: seq<Filter>)
    requires forall i :: 0 <= i < |fs| ==> PlainFilter(fs[i])
    ensures ParseFilters(FiltersText(fs)) == Some(fs)
  {
    if fs != [] {
      var tail := FiltersText(fs[1..]);
      FiltersRoundTrip(fs[1..]);
      assert ParseFilters(tail) == Some(fs[1..]);
      FilterThen(fs[0], tail);
      assert [fs[0]] + fs[1..] == fs;
    }
  }

  lemma {:induction false} FiltersNoPunct(fs: seq<Filter>)
    requires forall i :: 0 <= i < |fs| ==> PlainFilter(fs[i])
    ensures fs != [] ==> FiltersText(fs)[0] == '['
    ensures NoSelectorPunct(FiltersText(fs))
  {
    if fs != [] {
      var head := FilterText(fs[0]);
      var tail := FiltersText(fs[1..]);
      FiltersNoPunct(fs[1..]);
      FilterNoPunct(fs[0]);
      var s := head + tail;
      assert forall i :: 0 <= i < |s| ==> s[i] == if i < |head| then head[i] else tail[i - |head|];
    }
  }

  lemma FormatRoundTrip(f: Format)
    requires PlainFormat(f)
    ensures ParseFormat(FormatText(f)) == Some(f)
    ensures NoSelectorPunct(FormatText(f))
  {
    FiltersNoPunct(f.filters);
    var ft := FiltersText(f.filters);
    var s := FormatText(f);
    assert forall i :: 0 <= i < |s| ==> s[i] == if i < |f.name| then f.name[i] else ft[i - |f.name|];
    FormatParses(f);
  }

  lemma FormatParses(f: Format)
    requires PlainFormat(f)
    ensures ParseFormat(FormatText(f)) == Some(f)
  {
    assert '[' !in f.name by {
      assert forall i :: 0 <= i < |f.name| ==> f.name[i] != '[';
    }
    if f.filters == [] {
      assert FormatText(f) == f.name;
    } else {
      FilteredFormatParses(f);
    }
  }

  lemma FilteredFormatParses(f: Format)
    requires PlainFormat(f) && f.filters != [] && '[' !in f.name
    ensures ParseFormat(FormatText(f)) == Some(f)
  {
    FiltersRoundTrip(f.filters);
    FiltersNoPunct(f.filters);
    var ft := FiltersText(f.filters);
    assert ft == ['['] + ft[1..];
    assert FormatText(f) == f.name + ['['] + ft[1..];
    SplitFirstAt(f.name, ft[1..], '[');
  }

  lemma AlternativeRoundTrip(a: Alternative)
    requires PlainAlternative(a)
    ensures ParseAlternative(AlternativeText(a)) == Some(a)
    ensures '/' !in AlternativeText(a)
  {
    match a
    case Single(f) =>
      FormatRoundTrip(f);
      SplitWithoutSep(FormatText(f), '+');
    case Merged(v, au) =>
      FormatRoundTrip(v);
      FormatRoundTrip(au);
      SplitWithoutSep(FormatText(au), '+');
      SplitAfterFirst(FormatText(v), FormatText(au), '+');
      var s := AlternativeText(a);
      assert forall i :: 0 <= i < |s| ==> s[i] != '/' by {
        assert s == FormatText(v) + "+" + FormatText(au);
      }
  }

  lemma {:induction false} AlternativesRoundTrip(alts: seq<Alternative>)
    requires forall i :: 0 <= i < |alts| ==> PlainAlternative(alts[i])
    ensures ParseAlternatives(AlternativeTexts(alts)) == Some(alts)
  {
    if alts != [] {
      AlternativeRoundTrip(alts[0]);
      AlternativesRoundTrip(alts[1..]);
      assert AlternativeTexts(alts)[1..] == AlternativeTexts(alts[1..]);
      assert [alts[0]] + alts[1..] == alts;
    }
  }

  /** Reading a written selector gives back the same alternatives. */
  lemma SelectorRoundTrip(alts: seq<Alternative>)
    requires WellFormedSelector(alts)
    ensures ParseSelector(SelectorText(alts)) == Some(alts)
  {
    var texts := AlternativeTexts(alts);
    forall i | 0 <= i < |texts|
      ensures '/' !in texts[i]
    {
      AlternativeRoundTrip(alts[i]);
    }
    SplitJoin(texts, '/');
    AlternativesRoundTrip(alts);
  }

  // ---------------------------------------------------------------------
  // What a selector asks for
  // ---------------------------------------------------------------------

  /** The limit of the first height filter among `fs`, if there is one. */
  function HeightCap(fs: seq<Filter>): (r: Option<nat>)
    ensures r.Some? <==> exists i :: 0 <= i < |fs| && fs[i].HeightAtMost?
    ensures r.Some? ==> exists i :: 0 <= i < |fs| && fs[i] == HeightAtMost(r.value)
  {
    if fs == [] then None
    else if fs[0].HeightAtMost? then Some(fs[0].limit)
    else
      var r := HeightCap(fs[1..]);
      assert forall i :: 1 <= i < |fs| ==> fs[i] == fs[1..][i - 1];
      r
  }
}
