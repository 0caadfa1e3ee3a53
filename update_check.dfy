/** The startup update check of main.py: read the latest release from the feed,
    strip the tag's leading 'v's, compare it with the running version, and pick
    the first `.exe` asset. Every failure on the way means "no prompt". */
module UpdateCheck {
  import opened Text
  import opened Version

  const CURRENT_VERSION: string := "1.0.0"
  const GITHUB_REPO: string := "pmurodxm/yutube-downloader"
  const FEED_URL: string := "https://api.github.com/repos/" + GITHUB_REPO + "/releases/latest"
  const EXE_SUFFIX: string := ".exe"

  /** One element of the feed's `assets` list. A field is None when its key is
      missing (for `name`, also when it is not a string). */
  datatype Asset = Asset(name: Option<string>, browserDownloadUrl: Option<string>)

  /** The decoded feed body. `tagName` is None when `tag_name` is missing or not a
      string; `assets` is None when `assets` is missing or not a list. */
  datatype Release = Release(tagName: Option<string>, assets: Option<seq<Asset>>)

  /** What the GET of FEED_URL produced: a decoded body, or a connection error,
      a timeout, an error status or a body that is not JSON. */
  datatype Feed = Fetched(release: Release) | FetchFailed

  /** The outcome of `_check_for_update`: nothing, or the prompt scheduled with
      the stripped tag and the asset's download URL. */
  datatype Decision = NoPrompt | Prompt(version: string, downloadUrl: string)

  /** `name.lower().endswith('.exe')`. */
  predicate IsExeName(name: string) {
    EndsWith(Lower(name), EXE_SUFFIX)
  }

  /** An asset the search passes over: it has a name, and the name is not an `.exe`. */
  predicate SkippedAsset(a: Asset) {
    a.name.Some? && !IsExeName(a.name.value)
  }

  predicate AllSkipped(assets: seq<Asset>) {
    forall j :: 0 <= j < |assets| ==> SkippedAsset(assets[j])
  }

  /** The outcome of `next((a for a in assets if ...), None)`: the index of the
      asset found, no match, or the KeyError raised by an asset without `name`
      that the search reached. */
  datatype Selection = Selected(index: nat) | NoMatch | NameMissing

  function SelectAsset(assets: seq<Asset>): (r: Selection)
    ensures r.Selected? ==> (r.index < |assets| && AllSkipped(assets[..r.index])
                             && assets[r.index].name.Some? && IsExeName(assets[r.index].name.value))
    ensures r.NoMatch? <==> AllSkipped(assets)
    ensures r.NameMissing? ==> exists j :: 0 <= j < |assets| && AllSkipped(assets[..j]) && assets[j].name.None?
  {
    if assets == [] then NoMatch
    else if assets[0].name.None? then
      assert AllSkipped(assets[..0]);
      NameMissing
    else if IsExeName(assets[0].name.value) then
      assert AllSkipped(assets[..0]);
      Selected(0)
    else
      var r := SelectAsset(assets[1..]);
      match r
      case Selected(i) =>
        SkippedPrefixCons(assets, i);
        Selected(i + 1)
      case NoMatch =>
        SkippedTailCons(assets);
        NoMatch
      case NameMissing =>
        ghost var j :| 0 <= j < |assets[1..]| && AllSkipped(assets[1..][..j]) && assets[1..][j].name.None?;
        SkippedPrefixCons(assets, j);
        NameMissing
  }

  /** A skipped first asset in front of a skipped prefix of the rest. */
  lemma SkippedPrefixCons(assets: seq<Asset>, i: nat)
    requires assets != [] && SkippedAsset(assets[0])
    requires i < |assets| - 1 && AllSkipped(assets[1..][..i])
    ensures AllSkipped(assets[..i + 1]) && assets[i + 1] == assets[1..][i]
  {
    assert assets[..i + 1] == [assets[0]] + assets[1..][..i];
  }

  lemma SkippedTailCons(assets: seq<Asset>)
    requires assets != [] && SkippedAsset(assets[0]) && AllSkipped(assets[1..])
    ensures AllSkipped(assets)
  {
    forall j | 0 <= j < |assets|
      ensures SkippedAsset(assets[j])
    {
      if j > 0 {
        assert assets[j] == assets[1..][j - 1];
      }
    }
  }

  /** `_check_for_update` on what the feed returned, for the running version `current`. */
  function Decide(current: string, feed: Feed): (d: Decision)
    ensures d.Prompt? ==> (feed.Fetched? && feed.release.tagName.Some?
                           && d.version == LStrip(feed.release.tagName.value, 'v')
                           && IsNewer(d.version, current))
  {
    match feed
    case FetchFailed => NoPrompt
    case Fetched(release) =>
      if release.tagName.None? then NoPrompt
      else
        var latest := LStrip(release.tagName.value, 'v');
        if !IsNewer(latest, current) then NoPrompt
        else if release.assets.None? then NoPrompt
        else match SelectAsset(release.assets.value)
          case Selected(i) =>
            var url := release.assets.value[i].browserDownloadUrl;
            if url.Some? then Prompt(latest, url.value) else NoPrompt
          case _ => NoPrompt
  }

  /** Everything the prompt needs, stated without SelectAsset: the feed was read,
      the stripped tag is newer, and asset i is the first one in feed order with
      a name ending in ".exe" (any letter case), every earlier one having a name. */
  ghost predicate PromptConditions(current: string, feed: Feed, version: string, url: string) {
    && feed.Fetched?
    && feed.release.tagName.Some?
    && version == LStrip(feed.release.tagName.value, 'v')
    && IsNewer(version, current)
    && feed.release.assets.Some?
    && exists i :: 0 <= i < |feed.release.assets.value|
        && AllSkipped(feed.release.assets.value[..i])
        && feed.release.assets.value[i].name.Some?
        && IsExeName(feed.release.assets.value[i].name.value)
        && feed.release.assets.value[i].browserDownloadUrl == Some(url)
  }

  /** Only the first `.exe` asset can be chosen: if asset i qualifies, the search
      finds exactly i. */
  lemma {:induction false} FirstExeIsSelected(assets: seq<Asset>, i: nat)
    requires i < |assets| && AllSkipped(assets[..i])
    requires assets[i].name.Some? && IsExeName(assets[i].name.value)
    ensures SelectAsset(assets) == Selected(i)
  {
    if i > 0 {
      assert SkippedAsset(assets[..i][0]);
      assert assets[1..][..i - 1] == assets[..i][1..];
      FirstExeIsSelected(assets[1..], i - 1);
    }
  }

  /** The update prompt appears, with exactly this version and URL, if and only if
      the prompt conditions hold. */
  lemma DecideCharacterisation(current: string, feed: Feed, version: string, url: string)
    ensures Decide(current, feed) == Prompt(version, url) <==> PromptConditions(current, feed, version, url)
  {
    if PromptConditions(current, feed, version, url) {
      var assets := feed.release.assets.value;
      var i :| 0 <= i < |assets| && AllSkipped(assets[..i]) && assets[i].name.Some?
        && IsExeName(assets[i].name.value) && assets[i].browserDownloadUrl == Some(url);
      FirstExeIsSelected(assets, i);
    }
    if Decide(current, feed) == Prompt(version, url) {
      var assets := feed.release.assets.value;
      var i := SelectAsset(assets).index;
      assert assets[i].browserDownloadUrl == Some(url);
    }
  }

  /** Equal versions never prompt: a tag that reads as the running version (say
      "v1.0.0" against "1.0.0") leaves the user alone. */
  lemma EqualVersionNeverPrompts(current: string, feed: Feed)
    requires feed.Fetched? && feed.release.tagName.Some?
    requires VersionTuple(LStrip(feed.release.tagName.value, 'v')) == VersionTuple(current)
    ensures Decide(current, feed) == NoPrompt
  {
    SameTupleNotNewer(LStrip(feed.release.tagName.value, 'v'), current);
  }

  /** A newer release without any `.exe` asset does not prompt. */
  lemma NoExeAssetNeverPrompts(current: string, feed: Feed)
    requires feed.Fetched? && feed.release.assets.Some?
    requires AllSkipped(feed.release.assets.value)
    ensures Decide(current, feed) == NoPrompt
  {
  }

  /** Only lower-case 'v' is stripped: a tag such as "V1.2" keeps its 'V', fails
      to parse and never prompts. */
  lemma CapitalVTagNeverPrompts(current: string, feed: Feed)
    requires feed.Fetched? && feed.release.tagName.Some?
    requires StartsWith(feed.release.tagName.value, "V")
    ensures Decide(current, feed) == NoPrompt
  {
    var tag := feed.release.tagName.value;
    assert tag[0] == 'V';
    assert LStrip(tag, 'v') == tag;
    VersionTupleDefined(tag);
    assert !DigitOrDot(tag[0]);
  }

  /** Any name ending in ".EXE" counts as an `.exe`: the comparison ignores case. */
  lemma UpperCaseExeName(stem: string)
    ensures IsExeName(stem + ".EXE")
  {
    var s := stem + ".EXE";
    var low := Lower(s);
    var n := |s|;
    assert s[n - 4] == '.' && s[n - 3] == 'E' && s[n - 2] == 'X' && s[n - 1] == 'E';
    assert low[n - 4] == '.' && low[n - 3] == 'e' && low[n - 2] == 'x' && low[n - 1] == 'e';
    assert low[n - 4..] == ".exe";
  }

  /** "1.0.1" is newer than the running "1.0.0"; the reverse is not. */
  lemma PatchReleaseIsNewer()
    ensures IsNewer("1.0.1", CURRENT_VERSION)
    ensures !IsNewer(CURRENT_VERSION, "1.0.1")
  {
    PatchTuple();
    VersionTupleOneZeroZero();
    PatchTupleOrder();
  }

  lemma PatchTuple()
    ensures VersionTuple("1.0.1") == Some([1, 0, 1])
  {
    assert NatToDigits(1) == "1" && NatToDigits(0) == "0";
    RenderedThree(1, 0, 1, "1.0.1");
  }

  lemma PatchTupleOrder()
    ensures TupleLess([1, 0, 0], [1, 0, 1]) && !TupleLess([1, 0, 1], [1, 0, 0])
  {
    assert [1, 0, 0][1..] == [0, 0] && [1, 0, 1][1..] == [0, 1];
    assert [0, 0][1..] == [0] && [0, 1][1..] == [1];
  }

  lemma PatchTagStripped()
    ensures LStrip("v1.0.1", 'v') == "1.0.1"
  {
    assert "v1.0.1"[1..] == "1.0.1";
  }

  /** The scenario of a release "v1.0.1" whose one asset is named `stem` + ".EXE",
      against the running "1.0.0": the prompt offers "1.0.1" and the asset's URL. */
  lemma NewerReleaseExample(stem: string, url: string)
    ensures Decide(CURRENT_VERSION,
      Fetched(Release(Some("v1.0.1"), Some([Asset(Some(stem + ".EXE"), Some(url))]))))
      == Prompt("1.0.1", url)
  {
    var assets := [Asset(Some(stem + ".EXE"), Some(url))];
    var feed := Fetched(Release(Some("v1.0.1"), Some(assets)));
    PatchTagStripped();
    PatchReleaseIsNewer();
    UpperCaseExeName(stem);
    assert assets[..0] == [];
    assert PromptConditions(CURRENT_VERSION, feed, "1.0.1", url);
    DecideCharacterisation(CURRENT_VERSION, feed, "1.0.1", url);
  }
}
