/**
 * The fragment of Python's `re.search` that the detection step's keyword
 * patterns use: literal text, `.*` (any run of characters other than a line
 * feed) and `.?` (at most one character other than a line feed) between
 * literals. Only whether a match exists matters to the detector, so a
 * pattern is specified by the spans it can match and `Search` is proved to
 * agree with that specification.
 */
module Patterns {
  import opened Text

  /** What may stand between two literal parts of a pattern. */
  datatype Gap = AnyOnLine | AtMostOne

  datatype Segment = Segment(gap: Gap, lit: string)

  /** `head`, then each segment's gap followed by its literal. */
  datatype Pattern = Pattern(head: string, tail: seq<Segment>)

  /** A plain word pattern such as `precedent`. */
  function Word(w: string): Pattern {
    Pattern(w, [])
  }

  /** `a.*b` */
  function Near(a: string, b: string): Pattern {
    Pattern(a, [Segment(AnyOnLine, b)])
  }

  /** No line feed among `t[j..k]`. */
  predicate OneLine(t: string, j: nat, k: nat)
    requires j <= k <= |t|
  {
    forall m :: j <= m < k ==> t[m] != '\n'
  }

  /** The gap `g` may span exactly `t[j..k]`. */
  predicate GapSpans(t: string, g: Gap, j: nat, k: nat) {
    j <= k <= |t| && OneLine(t, j, k) && (g == AtMostOne ==> k <= j + 1)
  }

  /** Reference semantics: the segments can be matched starting at position `j`. */
  ghost predicate SegmentsFrom(t: string, j: nat, segs: seq<Segment>)
    decreases |segs|
  {
    segs == [] ||
    exists k: nat :: GapSpans(t, segs[0].gap, j, k) && OccursAt(t, segs[0].lit, k) &&
      SegmentsFrom(t, k + |segs[0].lit|, segs[1..])
  }

  /** Reference semantics: `re.search(p, t)` finds a match. */
  ghost predicate Found(t: string, p: Pattern) {
    exists i: nat :: OccursAt(t, p.head, i) && SegmentsFrom(t, i + |p.head|, p.tail)
  }

  /** Matches the segments from position `j`. */
  function Rest(t: string, j: nat, segs: seq<Segment>): bool
    requires j <= |t|
    decreases |segs|, |t| + 2
  {
    if segs == [] then true
    else match segs[0].gap
      case AnyOnLine => Scan(t, j, segs)
      case AtMostOne =>
        (OccursAt(t, segs[0].lit, j) && Rest(t, j + |segs[0].lit|, segs[1..])) ||
        (j < |t| && t[j] != '\n' && OccursAt(t, segs[0].lit, j + 1) &&
         Rest(t, j + 1 + |segs[0].lit|, segs[1..]))
  }

  /** Tries the first segment's literal at `k` and at every later position on the same line. */
  function Scan(t: string, k: nat, segs: seq<Segment>): bool
    requires k <= |t| && segs != []
    decreases |segs|, |t| - k + 1
  {
    (OccursAt(t, segs[0].lit, k) && Rest(t, k + |segs[0].lit|, segs[1..])) ||
    (k < |t| && t[k] != '\n' && Scan(t, k + 1, segs))
  }

  /** Tries the pattern at `i` and at every later position. */
  function SearchFrom(t: string, p: Pattern, i: nat): bool
    decreases |t| + 1 - i
  {
    i <= |t| &&
    ((OccursAt(t, p.head, i) && Rest(t, i + |p.head|, p.tail)) || SearchFrom(t, p, i + 1))
  }

  /** `re.search(p, t) is not None` */
  function Search(t: string, p: Pattern): (r: bool)
    ensures r == Found(t, p)
  {
    SearchFromFound(t, p, 0);
    assert SearchFrom(t, p, 0) == Found(t, p);
    SearchFrom(t, p, 0)
  }

  /** The positions on the line from `j` where the first literal occurs with the rest after it. */
  predicate ScanHit(t: string, j: nat, segs: seq<Segment>, k: nat)
    requires segs != []
  {
    j <= k <= |t| && OneLine(t, j, k) && OccursAt(t, segs[0].lit, k) && Rest(t, k + |segs[0].lit|, segs[1..])
  }

  lemma {:induction false} ScanSpec(t: string, k: nat, segs: seq<Segment>)
    requires k <= |t| && segs != []
    ensures Scan(t, k, segs) <==> exists k': nat :: ScanHit(t, k, segs, k')
    decreases |t| - k
  {
    if Scan(t, k, segs) && !ScanHit(t, k, segs, k) {
      ScanSpec(t, k + 1, segs);
      var k': nat :| ScanHit(t, k + 1, segs, k');
      assert OneLine(t, k, k');
      assert ScanHit(t, k, segs, k');
    }
    if exists k': nat :: ScanHit(t, k, segs, k') {
      var k': nat :| ScanHit(t, k, segs, k');
      if k' > k {
        assert OneLine(t, k + 1, k') && t[k] != '\n';
        assert ScanHit(t, k + 1, segs, k');
        ScanSpec(t, k + 1, segs);
      }
    }
  }

  /** After an occurrence of the first literal at `k`, matching the rest agrees with its specification. */
  ghost predicate TailAgreesAt(t: string, segs: seq<Segment>, k: nat)
    requires segs != []
  {
    OccursAt(t, segs[0].lit, k) ==>
      Rest(t, k + |segs[0].lit|, segs[1..]) == SegmentsFrom(t, k + |segs[0].lit|, segs[1..])
  }

  lemma AnyOnLineSound(t: string, j: nat, segs: seq<Segment>, k: nat)
    requires j <= |t| && segs != [] && segs[0].gap == AnyOnLine
    requires TailAgreesAt(t, segs, k) && ScanHit(t, j, segs, k)
    ensures SegmentsFrom(t, j, segs)
  {
    assert GapSpans(t, AnyOnLine, j, k);
  }

  lemma AnyOnLineComplete(t: string, j: nat, segs: seq<Segment>, k: nat)
    requires j <= |t| && segs != [] && segs[0].gap == AnyOnLine
    requires GapSpans(t, AnyOnLine, j, k) && OccursAt(t, segs[0].lit, k)
    requires SegmentsFrom(t, k + |segs[0].lit|, segs[1..]) && TailAgreesAt(t, segs, k)
    ensures ScanHit(t, j, segs, k)
  {
  }

  lemma AnyOnLineSpec(t: string, j: nat, segs: seq<Segment>)
    requires j <= |t| && segs != [] && segs[0].gap == AnyOnLine
    requires forall k: nat :: TailAgreesAt(t, segs, k)
    ensures Rest(t, j, segs) == SegmentsFrom(t, j, segs)
  {
    ScanSpec(t, j, segs);
    assert Rest(t, j, segs) == Scan(t, j, segs);
    if Scan(t, j, segs) {
      var k: nat :| ScanHit(t, j, segs, k);
      AnyOnLineSound(t, j, segs, k);
    }
    if SegmentsFrom(t, j, segs) {
      var k: nat :| GapSpans(t, segs[0].gap, j, k) && OccursAt(t, segs[0].lit, k) &&
        SegmentsFrom(t, k + |segs[0].lit|, segs[1..]);
      AnyOnLineComplete(t, j, segs, k);
    }
  }

  /** The literal at `j` or at `j + 1` with the rest after it: what `Rest` tries for `.?`. */
  predicate AtMostOneTries(t: string, j: nat, segs: seq<Segment>)
    requires j <= |t| && segs != []
  {
    (OccursAt(t, segs[0].lit, j) && Rest(t, j + |segs[0].lit|, segs[1..])) ||
    (j < |t| && t[j] != '\n' && OccursAt(t, segs[0].lit, j + 1) &&
     Rest(t, j + 1 + |segs[0].lit|, segs[1..]))
  }

  lemma AtMostOneComplete(t: string, j: nat, segs: seq<Segment>)
    requires j <= |t| && segs != [] && segs[0].gap == AtMostOne
    requires TailAgreesAt(t, segs, j) && TailAgreesAt(t, segs, j + 1)
    requires SegmentsFrom(t, j, segs)
    ensures AtMostOneTries(t, j, segs)
  {
    var lit := segs[0].lit;
    var k: nat :| GapSpans(t, segs[0].gap, j, k) && OccursAt(t, lit, k) &&
      SegmentsFrom(t, k + |lit|, segs[1..]);
    if k != j {
      assert OneLine(t, j, k);
      assert k == j + 1 && t[j] != '\n';
    }
  }

  lemma AtMostOneSound(t: string, j: nat, segs: seq<Segment>)
    requires j <= |t| && segs != [] && segs[0].gap == AtMostOne
    requires TailAgreesAt(t, segs, j) && TailAgreesAt(t, segs, j + 1)
    requires AtMostOneTries(t, j, segs)
    ensures SegmentsFrom(t, j, segs)
  {
    var lit := segs[0].lit;
    if OccursAt(t, lit, j) && Rest(t, j + |lit|, segs[1..]) {
      assert GapSpans(t, AtMostOne, j, j) && SegmentsFrom(t, j + |lit|, segs[1..]);
    } else {
      assert GapSpans(t, AtMostOne, j, j + 1) && SegmentsFrom(t, j + 1 + |lit|, segs[1..]);
    }
  }

  lemma AtMostOneSpec(t: string, j: nat, segs: seq<Segment>)
    requires j <= |t| && segs != [] && segs[0].gap == AtMostOne
    requires TailAgreesAt(t, segs, j) && TailAgreesAt(t, segs, j + 1)
    ensures Rest(t, j, segs) == SegmentsFrom(t, j, segs)
  {
    assert Rest(t, j, segs) == AtMostOneTries(t, j, segs);
    if SegmentsFrom(t, j, segs) {
      AtMostOneComplete(t, j, segs);
    }
    if AtMostOneTries(t, j, segs) {
      AtMostOneSound(t, j, segs);
    }
  }

  lemma {:induction false} RestSpec(t: string, j: nat, segs: seq<Segment>)
    requires j <= |t|
    ensures Rest(t, j, segs) == SegmentsFrom(t, j, segs)
    decreases |segs|
  {
    if segs != [] {
      var lit := segs[0].lit;
      forall k: nat
        ensures TailAgreesAt(t, segs, k)
      {
        if OccursAt(t, lit, k) {
          RestSpec(t, k + |lit|, segs[1..]);
        }
      }
      match segs[0].gap
      case AnyOnLine => AnyOnLineSpec(t, j, segs);
      case AtMostOne => AtMostOneSpec(t, j, segs);
    }
  }

  lemma {:induction false} SearchFromFound(t: string, p: Pattern, i: nat)
    requires i <= |t| + 1
    ensures SearchFrom(t, p, i) <==>
      exists i': nat :: i <= i' && OccursAt(t, p.head, i') && SegmentsFrom(t, i' + |p.head|, p.tail)
    decreases |t| + 1 - i
  {
    if i <= |t| {
      SearchFromFound(t, p, i + 1);
      if OccursAt(t, p.head, i) {
        RestSpec(t, i + |p.head|, p.tail);
      }
      if !SearchFrom(t, p, i) {
        forall i': nat | i <= i' && OccursAt(t, p.head, i')
          ensures !SegmentsFrom(t, i' + |p.head|, p.tail)
        {
        }
      }
    }
  }

  /** A word pattern is found exactly when the word occurs as a substring. */
  lemma WordFound(t: string, w: string)
    ensures Search(t, Word(w)) <==> Contains(t, w)
  {
    ContainsIff(t, w);
  }

  /** `a` at `i`, then `b` at `k` on the same line. */
  predicate NearAt(t: string, a: string, b: string, i: nat, k: nat) {
    i + |a| <= k <= |t| && OccursAt(t, a, i) && OneLine(t, i + |a|, k) && OccursAt(t, b, k)
  }

  lemma NearAtFound(t: string, a: string, b: string, i: nat, k: nat)
    requires NearAt(t, a, b, i, k)
    ensures Found(t, Near(a, b))
  {
    var p := Near(a, b);
    var seg := p.tail[0];
    assert SegmentsFrom(t, k + |seg.lit|, p.tail[1..]);
    assert GapSpans(t, seg.gap, i + |a|, k) && OccursAt(t, seg.lit, k);
    assert SegmentsFrom(t, i + |p.head|, p.tail);
  }

  /**
   * `a.*b` is found exactly when `a` occurs and `b` occurs after it with no
   * line feed in between.
   */
  lemma NearFound(t: string, a: string, b: string)
    ensures Search(t, Near(a, b)) <==> exists i: nat, k: nat :: NearAt(t, a, b, i, k)
  {
    var p := Near(a, b);
    if Search(t, p) {
      var i: nat :| OccursAt(t, a, i) && SegmentsFrom(t, i + |a|, p.tail);
      var k: nat :| GapSpans(t, AnyOnLine, i + |a|, k) && OccursAt(t, b, k) &&
        SegmentsFrom(t, k + |b|, p.tail[1..]);
      assert NearAt(t, a, b, i, k);
    }
    if exists i: nat, k: nat :: NearAt(t, a, b, i, k) {
      var i: nat, k: nat :| NearAt(t, a, b, i, k);
      NearAtFound(t, a, b, i, k);
    }
  }
}
