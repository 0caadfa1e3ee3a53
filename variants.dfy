/** How the five scripts differ on the same input: the video selectors they
    build for a quality label and the thumbnail lookups of main.py and yt3.py. */
module Variants {
  import opened Text
  import opened FormatSelector
  import opened Options
  import opened Gui
  import MainApp
  import Yt3App
  import Yt2App
  import Yt1App
  import YtApp

  /** A selector that reads back, with `first` as its preferred alternative
      and `last` as its final fallback. */
  predicate PrefersThenFallsBack(parsed: Option<seq<Alternative>>, first: Alternative, last: Alternative) {
    parsed.Some? && |parsed.value| >= 2 && parsed.value[0] == first && parsed.value[|parsed.value| - 1] == last
  }

  /** Every variant that asks for a quality prefers the same alternative, merged
      mp4 video under the label's height limit and m4a audio, and falls back to
      any file last. */
  lemma SameFirstChoice(quality: Option<string>)
    ensures PrefersThenFallsBack(ParseSelector(MainApp.VideoFormat(quality)), MergedMp4(HeightFor(quality)), ANY_BEST)
    ensures PrefersThenFallsBack(ParseSelector(Yt3App.VideoFormat(quality)), MergedMp4(HeightFor(quality)), ANY_BEST)
    ensures PrefersThenFallsBack(ParseSelector(Yt2App.VideoFormat(quality)), MergedMp4(HeightFor(quality)), ANY_BEST)
  {
    var h := HeightFor(quality);
    assert PrefersThenFallsBack(ParseSelector(MainApp.VideoFormat(quality)), MergedMp4(h), ANY_BEST) by {
      MainApp.VideoFormatMeaning(quality);
    }
    assert PrefersThenFallsBack(ParseSelector(Yt3App.VideoFormat(quality)), MergedMp4(h), ANY_BEST) by {
      Yt3App.VideoFormatParses(quality);
    }
    assert PrefersThenFallsBack(ParseSelector(Yt2App.VideoFormat(quality)), MergedMp4(h), ANY_BEST) by {
      Yt2App.VideoFormatMeaning(quality);
    }
  }

  /** Without a height, yt3.py and yt2.py build exactly the fixed selector of
      yt1.py and yt.py, while main.py's lacks the single mp4 fallback. */
  lemma UnlimitedSelectors(quality: Option<string>)
    requires HeightFor(quality).None?
    ensures Yt3App.VideoFormat(quality) == UNLIMITED_FORMAT
    ensures Yt2App.VideoFormat(quality) == UNLIMITED_FORMAT
    ensures Yt1App.DownloadOptions("video", "").format == UNLIMITED_FORMAT
    ensures YtApp.DownloadOptions("video", "").format == UNLIMITED_FORMAT
    ensures MainApp.VideoFormat(quality) != UNLIMITED_FORMAT
  {
    Yt3App.VideoFormatMeaning(quality);
    Yt2App.VideoFormatMeaning(quality);
    MainApp.VideoFormatMeaning(quality);
    UnlimitedFormatMeaning();
  }

  /** With a height, yt2.py's chain is yt3.py's with the height-limited single
      mp4 file inserted after the merged alternative. */
  lemma LimitedSelectors(quality: Option<string>)
    requires HeightFor(quality).Some?
    ensures var h := HeightFor(quality);
      var yt3 := ParseSelector(Yt3App.VideoFormat(quality));
      && yt3.Some? && |yt3.value| == 3
      && ParseSelector(Yt2App.VideoFormat(quality)) == Some(yt3.value[..1] + [Single(BestMp4(h))] + yt3.value[1..])
      && HeightCap(BestMp4(h).filters) == h
  {
    var h := HeightFor(quality);
    Yt3App.VideoFormatParses(quality);
    Yt2App.LimitedFormatMeaning(h);
    InsertSecond(MergedMp4(h), Single(BestMp4(h)), ANY_MP4, ANY_BEST);
  }

  lemma InsertSecond<T>(a: T, b: T, c: T, d: T)
    ensures [a, c, d][..1] + [b] + [a, c, d][1..] == [a, b, c, d]
  {
    assert [a, c, d][1..] == [c, d];
  }

  /** yt3.py's lookup finds the URL main.py's finds whenever it does not raise,
      and it raises exactly where main.py's falls back to no thumbnail because
      the `thumbnails` list is empty. */
  lemma ThumbnailLookupsAgree(info: InfoDict)
    ensures Yt3App.ThumbUrl(info).Ok? ==> Yt3App.ThumbUrl(info).value == MainApp.ThumbUrl(info)
    ensures Yt3App.ThumbUrl(info).Raised? <==> MainApp.ThumbUrl(info) == "" && info.thumbnails == Some([])
  {
  }
}
