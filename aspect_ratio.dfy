/**
 * `sizeToAspectRatio`: maps a `"WxH"` size string to the nearest of the five
 * aspect-ratio buckets the upstream accepts, or to `null` when the string is
 * not two numbers separated by `x`.
 */
module AspectRatio {
  import opened Wrappers
  import JsText

  /** The five buckets, in the order the lookup table lists them. */
  datatype Bucket = Square | Landscape4x3 | Portrait3x4 | Wide16x9 | Tall9x16

  /** The bucket's key, as sent upstream in `aspectRatio`. */
  function Key(b: Bucket): string
  {
    match b
    case Square => "1:1"
    case Landscape4x3 => "4:3"
    case Portrait3x4 => "3:4"
    case Wide16x9 => "16:9"
    case Tall9x16 => "9:16"
  }

  /** The bucket's width / height. */
  function Value(b: Bucket): real
  {
    match b
    case Square => 1.0
    case Landscape4x3 => 4.0 / 3.0
    case Portrait3x4 => 3.0 / 4.0
    case Wide16x9 => 16.0 / 9.0
    case Tall9x16 => 9.0 / 16.0
  }

  /** The lookup table in iteration order. */
  const Table: seq<Bucket> := [Square, Landscape4x3, Portrait3x4, Wide16x9, Tall9x16]

  /** The bucket's position in `Table`. */
  function Index(b: Bucket): (i: nat)
    ensures i < |Table| && Table[i] == b
  {
    match b
    case Square => 0
    case Landscape4x3 => 1
    case Portrait3x4 => 2
    case Wide16x9 => 3
    case Tall9x16 => 4
  }

  /**
   * A JavaScript number as `width / height` can produce it from two
   * non-negative integers: finite, or (when the height is 0) Infinity or NaN.
   * Widths and heights too large for a double are outside this model.
   */
  datatype Quotient = Finite(q: real) | NonFinite

  function Divide(w: nat, h: nat): Quotient
  {
    if h == 0 then NonFinite else Finite(w as real / h as real)
  }

  function Abs(x: real): real { if x < 0.0 then -x else x }

  /** `|ratio - value|` on exact reals. */
  function Dist(ratio: real, b: Bucket): real
  {
    Abs(ratio - Value(b))
  }

  /** `Math.abs(ratio - value)`: Infinity stays Infinity, NaN stays NaN. */
  function Distance(ratio: Quotient, b: Bucket): Quotient
  {
    match ratio
    case Finite(q) => Finite(Dist(q, b))
    case NonFinite => NonFinite
  }

  /**
   * JavaScript `<` on two distances computed from the same ratio: any
   * comparison involving Infinity with itself or NaN is false.
   */
  predicate Less(a: Quotient, b: Quotient)
  {
    a.Finite? && b.Finite? && a.q < b.q
  }

  /**
   * The bucket the scan over `s` keeps: the first element, replaced by a
   * later one only when that one is strictly closer.
   */
  function Nearest(ratio: real, s: seq<Bucket>): Bucket
    requires |s| > 0
  {
    if |s| == 1 then s[0]
    else
      var best := Nearest(ratio, s[..|s| - 1]);
      if Dist(ratio, s[|s| - 1]) < Dist(ratio, best) then s[|s| - 1] else best
  }

  /**
   * Declarative meaning of "nearest bucket, ties to the earliest": no bucket
   * is closer, and every bucket listed before it is strictly farther.
   */
  ghost predicate IsNearest(ratio: real, b: Bucket)
  {
    (forall c: Bucket :: Dist(ratio, b) <= Dist(ratio, c))
    && (forall c: Bucket :: Index(c) < Index(b) ==> Dist(ratio, b) < Dist(ratio, c))
  }

  /** `size.split('x').map(Number)`, accepted only as two numbers. */
  function ParseSize(size: string): Option<(nat, nat)>
  {
    var parts := JsText.Split(size, 'x');
    if |parts| != 2 then None
    else
      match (JsText.ToNumber(parts[0]), JsText.ToNumber(parts[1]))
      case (Some(w), Some(h)) => Some((w, h))
      case _ => None
  }

  /**
   * What `sizeToAspectRatio(size)` returns. A zero height makes the ratio
   * Infinity or NaN, no distance compares below another, and the initial
   * `"1:1"` is kept.
   */
  function AspectRatioOf(size: string): Option<Bucket>
  {
    match ParseSize(size)
    case None => None
    case Some((w, h)) => Some(if h == 0 then Square else Nearest(w as real / h as real, Table))
  }

  /** The resolver as the worker runs it: a scan over the table keeping the closest so far. */
  method SizeToAspectRatio(size: string) returns (r: Option<Bucket>)
    ensures r == AspectRatioOf(size)
  {
    var parts := JsText.Split(size, 'x');
    if |parts| != 2 {
      return None;
    }
    var width := JsText.ToNumber(parts[0]);
    var height := JsText.ToNumber(parts[1]);
    if width.None? || height.None? {
      return None;
    }
    var ratio := Divide(width.value, height.value);
    var closest := Square;
    var minDiff := Distance(ratio, Square);
    var i := 0;
    while i < |Table|
      invariant 0 <= i <= |Table|
      invariant ratio.NonFinite? ==> closest == Square && minDiff.NonFinite?
      invariant ratio.Finite? ==>
        closest == Nearest(ratio.q, Table[..if i == 0 then 1 else i])
        && minDiff == Finite(Dist(ratio.q, closest))
    {
      assert Table[..i + 1][..i] == Table[..i];
      var diff := Distance(ratio, Table[i]);
      if Less(diff, minDiff) {
        minDiff := diff;
        closest := Table[i];
      }
      i := i + 1;
    }
    assert Table[..|Table|] == Table;
    return Some(closest);
  }

  // ---------------------------------------------------------------------------
  // Properties
  // ---------------------------------------------------------------------------

  /**
   * The scan returns an element of `s` that is at least as close as every
   * element, and at some position of `s` it is strictly closer than all
   * elements before it.
   */
  lemma {:induction false} NearestIsClosestFirst(ratio: real, s: seq<Bucket>)
    requires |s| > 0
    ensures forall k :: 0 <= k < |s| ==> Dist(ratio, Nearest(ratio, s)) <= Dist(ratio, s[k])
    ensures exists j :: 0 <= j < |s| && s[j] == Nearest(ratio, s)
              && forall k :: 0 <= k < j ==> Dist(ratio, Nearest(ratio, s)) < Dist(ratio, s[k])
  {
    if |s| == 1 {
      assert s[0] == Nearest(ratio, s);
    } else {
      var init := s[..|s| - 1];
      NearestIsClosestFirst(ratio, init);
      var best := Nearest(ratio, init);
      var j :| 0 <= j < |init| && init[j] == best
                && forall k :: 0 <= k < j ==> Dist(ratio, best) < Dist(ratio, init[k]);
      if Dist(ratio, s[|s| - 1]) < Dist(ratio, best) {
        assert forall k :: 0 <= k < |s| - 1 ==> Dist(ratio, s[|s| - 1]) < Dist(ratio, s[k]) by {
          assert forall k :: 0 <= k < |s| - 1 ==> s[k] == init[k];
        }
        assert s[|s| - 1] == Nearest(ratio, s);
      } else {
        assert s[j] == best;
        assert forall k :: 0 <= k < j ==> s[k] == init[k];
      }
    }
  }

  /** The table scan satisfies the declarative definition of "nearest". */
  lemma NearestIsNearest(ratio: real)
    ensures IsNearest(ratio, Nearest(ratio, Table))
  {
    NearestIsClosestFirst(ratio, Table);
    var b := Nearest(ratio, Table);
    forall c: Bucket
      ensures Dist(ratio, b) <= Dist(ratio, c)
      ensures Index(c) < Index(b) ==> Dist(ratio, b) < Dist(ratio, c)
    {
      assert Table[Index(c)] == c;
    }
  }

  /** At most one bucket is nearest in that sense, so the definition fixes the result. */
  lemma NearestUnique(ratio: real, b: Bucket, c: Bucket)
    requires IsNearest(ratio, b) && IsNearest(ratio, c)
    ensures b == c
  {
    assert Table[Index(b)] == b && Table[Index(c)] == c;
  }

  /**
   * `sizeToAspectRatio` returns `null` exactly when splitting on `x` does not
   * give two parts or one part is not a number.
   */
  lemma NullIff(size: string)
    ensures AspectRatioOf(size).None? <==>
      (|JsText.Split(size, 'x')| != 2
       || JsText.ToNumber(JsText.Split(size, 'x')[0]).None?
       || JsText.ToNumber(JsText.Split(size, 'x')[1]).None?)
  {
  }

  /**
   * For a positive height the result is the nearest bucket to `width / height`,
   * ties going to the one listed first.
   */
  lemma ResolvesToNearest(size: string, w: nat, h: nat)
    requires ParseSize(size) == Some((w, h)) && h > 0
    ensures AspectRatioOf(size).Some?
    ensures IsNearest(w as real / h as real, AspectRatioOf(size).value)
  {
    NearestIsNearest(w as real / h as real);
  }

  /** A zero height yields `"1:1"`, not `null`. */
  lemma ZeroHeightIsSquare(size: string, w: nat)
    requires ParseSize(size) == Some((w, 0))
    ensures AspectRatioOf(size) == Some(Square)
  {
  }
}

/** Worked inputs for the resolver. */
module AspectRatioExamples {
  import opened Wrappers
  import opened AspectRatio
  import JsText

  /** `"0x0"` resolves to `"1:1"`: the ratio is NaN and nothing compares below it. */
  lemma ZeroByZeroIsSquare()
    ensures AspectRatioOf("0x0") == Some(Square)
  {
    JsText.SplitNoSeparator("0", 'x');
    JsText.SplitAtFirst("0", 'x', "0");
    assert "0x0" == "0" + ['x'] + "0";
    assert "0"[..0] == "";
  }

  /** A size without `x` is one part, hence `null`. */
  lemma SinglePartIsNull()
    ensures AspectRatioOf("100") == None
  {
  }

  /** `"16x9"` lands exactly on the 16:9 bucket. */
  lemma SixteenByNine()
    ensures AspectRatioOf("16x9") == Some(Wide16x9)
  {
    JsText.SplitNoSeparator("9", 'x');
    JsText.SplitAtFirst("16", 'x', "9");
    assert "16x9" == "16" + ['x'] + "9";
    assert "16"[..1] == "1" && "1"[..0] == "" && "9"[..0] == "";
    assert ParseSize("16x9") == Some((16, 9));
    var q := 16.0 / 9.0;
    NearestIsNearest(q);
    assert IsNearest(q, Wide16x9);
    NearestUnique(q, Nearest(q, Table), Wide16x9);
  }

  /**
   * `"7x8"` is exactly 0.125 from both 1:1 and 3:4 (in binary floating point
   * too); the strict `<` keeps 1:1.
   */
  lemma TieKeepsEarlierBucket()
    ensures AspectRatioOf("7x8") == Some(Square)
  {
    JsText.SplitNoSeparator("8", 'x');
    JsText.SplitAtFirst("7", 'x', "8");
    assert "7x8" == "7" + ['x'] + "8";
    assert "7"[..0] == "" && "8"[..0] == "";
    assert ParseSize("7x8") == Some((7, 8));
    var q := 7.0 / 8.0;
    assert Dist(q, Square) == Dist(q, Portrait3x4);
    NearestIsNearest(q);
    assert IsNearest(q, Square);
    NearestUnique(q, Nearest(q, Table), Square);
  }
}
