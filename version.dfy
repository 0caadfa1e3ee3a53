/** The updater's version numbers: `_version_tuple` turns a dotted string into a
    tuple of integers, and versions are compared with Python's tuple order. */
module Version {
  import opened Text

  /** `int(segment)` for one dot-separated segment: a non-empty run of decimal digits. */
  function ParseSegment(s: string): (r: Option<nat>)
    ensures r.Some? <==> s != [] && AllDigits(s)
  {
    if s != [] && AllDigits(s) then Some(DigitsValue(s)) else None
  }

  /** `tuple(map(int, segments))`: fails as soon as one segment fails. */
  function ParseSegments(segs: seq<string>): (r: Option<seq<nat>>)
    ensures r.Some? <==> forall i :: 0 <= i < |segs| ==> ParseSegment(segs[i]).Some?
    ensures r.Some? ==> |r.value| == |segs|
    ensures r.Some? ==> forall i :: 0 <= i < |segs| ==> ParseSegment(segs[i]) == Some(r.value[i])
  {
    if segs == [] then Some([])
    else match (ParseSegment(segs[0]), ParseSegments(segs[1..]))
      case (Some(n), Some(ns)) => Some([n] + ns)
      case _ => None
  }

  /** `_version_tuple(v)`: split on '.', convert every segment; None stands for
      the ValueError `int()` raises on an empty or non-numeric segment. */
  function VersionTuple(v: string): (r: Option<seq<nat>>)
    ensures r.Some? ==> |r.value| >= 1
  {
    ParseSegments(Split(v, '.'))
  }

  /** The dotted form of a version tuple: `'.'.join(map(str, t))`. */
  function Render(t: seq<nat>): string {
    Join(seq(|t|, i requires 0 <= i < |t| => NatToDigits(t[i])), '.')
  }

  /** Parsing the dotted form of a tuple gives the tuple back. */
  lemma VersionTupleRender(t: seq<nat>)
    requires |t| >= 1
    ensures VersionTuple(Render(t)) == Some(t)
  {
    var segs := seq(|t|, i requires 0 <= i < |t| => NatToDigits(t[i]));
    forall i | 0 <= i < |segs|
      ensures '.' !in segs[i] && ParseSegment(segs[i]) == Some(t[i])
    {
      DigitsRoundTrip(t[i]);
    }
    SplitJoin(segs, '.');
    var r := ParseSegments(segs);
    assert r.Some?;
    assert r.value == t;
  }

  lemma RenderThree(a: nat, b: nat, c: nat)
    ensures Render([a, b, c]) == NatToDigits(a) + "." + NatToDigits(b) + "." + NatToDigits(c)
  {
    var x, y, z := NatToDigits(a), NatToDigits(b), NatToDigits(c);
    var segs := seq(3, i requires 0 <= i < 3 => NatToDigits([a, b, c][i]));
    assert segs == [x] + ([y] + [z]);
    JoinCons(x, [y] + [z], '.');
    JoinCons(y, [z], '.');
  }

  // ---------------------------------------------------------------------
  // Characterisation of the strings `_version_tuple` accepts
  // ---------------------------------------------------------------------

  predicate DigitOrDot(c: char) {
    IsDigit(c) || c == '.'
  }

  /** Digits and dots only, no two dots in a row, and (when non-empty) no dot at the end. */
  ghost predicate DottedTail(t: string) {
    && (forall i :: 0 <= i < |t| ==> DigitOrDot(t[i]))
    && (forall i :: 0 <= i < |t| - 1 ==> !(t[i] == '.' && t[i + 1] == '.'))
    && (t == [] || t[|t| - 1] != '.')
  }

  /** The strings `_version_tuple` accepts: digits separated by single dots,
      with no dot at either end. */
  ghost predicate WellFormedVersion(v: string) {
    v != [] && v[0] != '.' && DottedTail(v)
  }

  /** Every piece is digits, and every piece but the first is non-empty. */
  ghost predicate DigitPieces(parts: seq<string>) {
    && (forall i :: 0 <= i < |parts| ==> AllDigits(parts[i]))
    && (forall i :: 1 <= i < |parts| ==> parts[i] != [])
  }

  lemma {:induction false} FirstPieceEmpty(s: string, sep: char)
    ensures Split(s, sep)[0] == [] <==> s == [] || s[0] == sep
  {
    if s != [] && s[0] != sep {
      assert Split(s, sep)[0] == [s[0]] + Split(s[1..], sep)[0];
    }
  }

  lemma {:induction false} DigitPiecesIff(t: string)
    ensures DigitPieces(Split(t, '.')) <==> DottedTail(t)
  {
    if t != [] {
      DigitPiecesIff(t[1..]);
      if t[0] == '.' {
        DotHeadPieces(t);
      } else {
        CharHeadPieces(t);
      }
    }
  }

  /** The inductive step when `t` starts with a dot: an empty first piece. */
  lemma DotHeadPieces(t: string)
    requires t != [] && t[0] == '.'
    requires DigitPieces(Split(t[1..], '.')) <==> DottedTail(t[1..])
    ensures DigitPieces(Split(t, '.')) <==> DottedTail(t)
  {
    var rest := Split(t[1..], '.');
    FirstPieceEmpty(t[1..], '.');
    var parts := [""] + rest;
    assert Split(t, '.') == parts;
    assert forall i :: 0 <= i < |rest| ==> rest[i] == parts[i + 1];
    if DigitPieces(parts) {
      assert DigitPieces(rest);
      assert rest[0] != [];
      assert DottedTail(t);
    }
    if DottedTail(t) {
      assert |t| >= 2 && t[1] != '.';
      assert DottedTail(t[1..]) by {
        assert forall i :: 0 <= i < |t| - 1 ==> t[1..][i] == t[i + 1];
      }
      assert DigitPieces(parts);
    }
  }

  /** The inductive step when `t` starts with another character: it joins the
      first piece. */
  lemma CharHeadPieces(t: string)
    requires t != [] && t[0] != '.'
    requires DigitPieces(Split(t[1..], '.')) <==> DottedTail(t[1..])
    ensures DigitPieces(Split(t, '.')) <==> DottedTail(t)
  {
    var rest := Split(t[1..], '.');
    var parts := [[t[0]] + rest[0]] + rest[1..];
    assert Split(t, '.') == parts;
    if DigitPieces(parts) {
      CharHeadForward(t, rest);
    }
    if DottedTail(t) {
      CharHeadBackward(t, rest);
    }
  }

  lemma CharHeadForward(t: string, rest: seq<string>)
    requires t != [] && |rest| >= 1
    requires DigitPieces(rest) ==> DottedTail(t[1..])
    requires DigitPieces([[t[0]] + rest[0]] + rest[1..])
    ensures DottedTail(t)
  {
    var parts := [[t[0]] + rest[0]] + rest[1..];
    assert AllDigits(rest[0]) by {
      assert forall i :: 0 <= i < |rest[0]| ==> rest[0][i] == parts[0][i + 1];
    }
    assert forall i :: 1 <= i < |parts| ==> parts[i] == rest[i];
    assert DigitPieces(rest);
    assert IsDigit(t[0]) by {
      assert parts[0][0] == t[0];
    }
    var u := t[1..];
    assert forall i :: 1 <= i < |t| ==> t[i] == u[i - 1];
    if |t| > 1 {
      assert t[|t| - 1] == u[|u| - 1];
    }
  }

  lemma CharHeadBackward(t: string, rest: seq<string>)
    requires t != [] && t[0] != '.' && |rest| >= 1
    requires DottedTail(t[1..]) ==> DigitPieces(rest)
    requires DottedTail(t)
    ensures DigitPieces([[t[0]] + rest[0]] + rest[1..])
  {
    var parts := [[t[0]] + rest[0]] + rest[1..];
    var u := t[1..];
    assert DottedTail(u) by {
      assert forall i :: 0 <= i < |t| - 1 ==> u[i] == t[i + 1];
    }
    assert IsDigit(t[0]);
    assert AllDigits(parts[0]);
    assert forall i :: 1 <= i < |parts| ==> parts[i] == rest[i];
  }

  /** `_version_tuple` succeeds exactly on digits separated by single dots:
      an empty segment ("1..0", "1.", ".1", "") or a non-digit ("1.x", "v1")
      makes it fail. */
  lemma VersionTupleDefined(v: string)
    ensures VersionTuple(v).Some? <==> WellFormedVersion(v)
  {
    var parts := Split(v, '.');
    DigitPiecesIff(v);
    FirstPieceEmpty(v, '.');
    assert VersionTuple(v).Some? <==> DigitPieces(parts) && parts[0] != [];
  }

  // ---------------------------------------------------------------------
  // Python's tuple order
  // ---------------------------------------------------------------------

  /** `a < b` on tuples of ints: the first differing component decides, and a
      proper prefix is smaller. There is no zero padding: (1, 0) < (1, 0, 0). */
  predicate TupleLess(a: seq<nat>, b: seq<nat>) {
    if a == [] then b != []
    else if b == [] then false
    else a[0] < b[0] || (a[0] == b[0] && TupleLess(a[1..], b[1..]))
  }

  /** Reference definition: some common prefix of length k is followed either
      by the end of `a` (with `b` longer) or by a smaller component in `a`. */
  ghost predicate LexLess(a: seq<nat>, b: seq<nat>) {
    exists k :: 0 <= k <= |a| && k <= |b| && a[..k] == b[..k]
      && ((k == |a| && k < |b|) || (k < |a| && k < |b| && a[k] < b[k]))
  }

  lemma {:induction false} TupleLessIsLexLess(a: seq<nat>, b: seq<nat>)
    ensures TupleLess(a, b) <==> LexLess(a, b)
  {
    if a == [] {
      if b != [] {
        assert a[..0] == b[..0];
      }
    } else if b == [] {
    } else {
      TupleLessIsLexLess(a[1..], b[1..]);
      if TupleLess(a, b) {
        if a[0] < b[0] {
          assert a[..0] == b[..0];
        } else {
          var k :| 0 <= k <= |a[1..]| && k <= |b[1..]| && a[1..][..k] == b[1..][..k]
            && ((k == |a[1..]| && k < |b[1..]|) || (k < |a[1..]| && k < |b[1..]| && a[1..][k] < b[1..][k]));
          assert a[..k + 1] == [a[0]] + a[1..][..k];
          assert b[..k + 1] == [b[0]] + b[1..][..k];
        }
      }
      if LexLess(a, b) {
        var k :| 0 <= k <= |a| && k <= |b| && a[..k] == b[..k]
          && ((k == |a| && k < |b|) || (k < |a| && k < |b| && a[k] < b[k]));
        if k > 0 {
          assert a[0] == a[..k][0] == b[..k][0] == b[0];
          assert a[1..][..k - 1] == a[..k][1..];
          assert b[1..][..k - 1] == b[..k][1..];
          assert LexLess(a[1..], b[1..]);
        }
      }
    }
  }

  lemma {:induction false} TupleLessIrreflexive(a: seq<nat>)
    ensures !TupleLess(a, a)
  {
    if a != [] {
      TupleLessIrreflexive(a[1..]);
    }
  }

  lemma {:induction false} TupleLessTransitive(a: seq<nat>, b: seq<nat>, c: seq<nat>)
    requires TupleLess(a, b) && TupleLess(b, c)
    ensures TupleLess(a, c)
  {
    if a != [] && b != [] && c != [] && a[0] == b[0] == c[0] {
      TupleLessTransitive(a[1..], b[1..], c[1..]);
    }
  }

  /** Any two distinct tuples are ordered one way or the other, and never both. */
  lemma {:induction false} TupleLessTotal(a: seq<nat>, b: seq<nat>)
    ensures a == b || TupleLess(a, b) || TupleLess(b, a)
    ensures !(TupleLess(a, b) && TupleLess(b, a))
  {
    if a != [] && b != [] && a[0] == b[0] {
      TupleLessTotal(a[1..], b[1..]);
      if a[1..] == b[1..] {
        assert a == [a[0]] + a[1..] && b == [b[0]] + b[1..];
      }
    }
  }

  /** A proper prefix is older: "1.0" < "1.0.0", unlike a zero-padding comparison. */
  lemma {:induction false} ProperPrefixIsLess(a: seq<nat>, b: seq<nat>)
    requires |a| < |b| && a == b[..|a|]
    ensures TupleLess(a, b)
  {
    if a != [] {
      assert a[1..] == b[1..][..|a| - 1];
      ProperPrefixIsLess(a[1..], b[1..]);
    }
  }

  /** `_version_tuple(remote) > _version_tuple(local)`, where a failed parse
      counts as "not newer" (the exception is swallowed by the caller). */
  predicate IsNewer(remote: string, local: string) {
    var r := VersionTuple(remote);
    var l := VersionTuple(local);
    r.Some? && l.Some? && TupleLess(l.value, r.value)
  }

  /** A version is never newer than one that parses to the same tuple. */
  lemma SameTupleNotNewer(remote: string, local: string)
    requires VersionTuple(remote) == VersionTuple(local)
    ensures !IsNewer(remote, local)
  {
    if VersionTuple(remote).Some? {
      TupleLessIrreflexive(VersionTuple(remote).value);
    }
  }

  /** The decimal form of a three-part version, as `Render` writes it. */
  lemma RenderedThree(a: nat, b: nat, c: nat, text: string)
    requires text == NatToDigits(a) + "." + NatToDigits(b) + "." + NatToDigits(c)
    ensures VersionTuple(text) == Some([a, b, c])
  {
    VersionTupleRender([a, b, c]);
    RenderThree(a, b, c);
  }

  /** "1.0.0" reads as (1, 0, 0). */
  lemma VersionTupleOneZeroZero()
    ensures VersionTuple("1.0.0") == Some([1, 0, 0])
  {
    assert NatToDigits(1) == "1" && NatToDigits(0) == "0";
    RenderedThree(1, 0, 0, "1.0.0");
  }

  /** Malformed versions do not parse: an empty segment, a letter, the empty string. */
  lemma VersionTupleRejects()
    ensures VersionTuple("1..0") == None
    ensures VersionTuple("1.x") == None
    ensures VersionTuple("") == None
  {
    VersionTupleDefined("1..0");
    assert !WellFormedVersion("1..0") by {
      assert "1..0"[1] == '.' && "1..0"[2] == '.';
    }
    VersionTupleDefined("1.x");
    assert !WellFormedVersion("1.x") by {
      assert !DigitOrDot("1.x"[2]);
    }
  }
}
