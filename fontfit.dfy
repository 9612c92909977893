/**
  The font-size fitting search of `Note.scaleFontSize`, stated as pure functions.

  Text layout is done by a foreign library; here it is an abstract, deterministic
  `measure` that maps a font size to the extent (minimum bounding width, total
  height) of the wrapped paragraph. All lengths are millimetres.

  The search measures the sizes 10, 11, ... in turn and stops at the first size
  whose extent reaches either body bound (`>=`), or at 200. It then steps back
  one size only when that last extent strictly exceeds a bound (`>`).
 */
module FontFit {

  /** The size the search starts from; it is never measured by the loop itself. */
  const StartSize: int := 9
  /** The size at which the search gives up. */
  const MaxSize: int := 200

  /** What text layout reports for a wrapped paragraph. */
  datatype Extent = Extent(width: real, height: real)

  /**
    The loop's stopping test: the block touches or crosses a body bound. Its
    negation says the block is strictly inside both bounds.
   */
  predicate Reaches(e: Extent, bodyWidth: real, bodyHeight: real)
  {
    e.height >= bodyHeight || e.width >= bodyWidth
  }

  /** The step-back test: the block strictly crosses a body bound. */
  predicate Exceeds(e: Extent, bodyWidth: real, bodyHeight: real)
    ensures Exceeds(e, bodyWidth, bodyHeight) ==> Reaches(e, bodyWidth, bodyHeight)
  {
    e.height > bodyHeight || e.width > bodyWidth
  }

  /**
    The size at which a search that has already passed the sizes below `n`
    stops: the first size from `n` on that reaches a bound, or `MaxSize`.
   */
  function StopFrom(measure: int -> Extent, bodyWidth: real, bodyHeight: real, n: int): (s: int)
    requires StartSize < n <= MaxSize
    ensures n <= s <= MaxSize
    ensures s < MaxSize ==> Reaches(measure(s), bodyWidth, bodyHeight)
    ensures forall k :: n <= k < s ==> !Reaches(measure(k), bodyWidth, bodyHeight)
    decreases MaxSize - n
  {
    if n == MaxSize || Reaches(measure(n), bodyWidth, bodyHeight) then n
    else StopFrom(measure, bodyWidth, bodyHeight, n + 1)
  }

  /** The last size the loop measures. */
  function StopSize(measure: int -> Extent, bodyWidth: real, bodyHeight: real): (s: int)
    ensures StartSize < s <= MaxSize
    ensures s < MaxSize ==> Reaches(measure(s), bodyWidth, bodyHeight)
  {
    StopFrom(measure, bodyWidth, bodyHeight, StartSize + 1)
  }

  /** The size that is finally kept and drawn. */
  function FitSize(measure: int -> Extent, bodyWidth: real, bodyHeight: real): (f: int)
    ensures StartSize <= f <= MaxSize
    ensures f > StartSize ==> !Exceeds(measure(f), bodyWidth, bodyHeight)
  {
    var s := StopSize(measure, bodyWidth, bodyHeight);
    if Exceeds(measure(s), bodyWidth, bodyHeight) then s - 1 else s
  }

  /**
    The stopping size is determined by its three observable properties: in range,
    reaching a bound unless it is the last size, and every earlier size strictly
    inside both bounds.
   */
  lemma StopSizeIsFirstReach(measure: int -> Extent, bodyWidth: real, bodyHeight: real, s: int)
    ensures s == StopSize(measure, bodyWidth, bodyHeight)
        <==> (StartSize < s <= MaxSize
              && (s < MaxSize ==> Reaches(measure(s), bodyWidth, bodyHeight))
              && forall k :: StartSize < k < s ==> !Reaches(measure(k), bodyWidth, bodyHeight))
  {
  }

  /**
    The returned size lies in [9, 200]. The two equivalences after the range
    restate the definition of `FitSize`: one below the stopping size exactly when
    the stopping size strictly overflows, and otherwise equal to it.
   */
  lemma FitSizeStepsBackOnlyOnOverflow(measure: int -> Extent, bodyWidth: real, bodyHeight: real)
    ensures var s := StopSize(measure, bodyWidth, bodyHeight);
            var f := FitSize(measure, bodyWidth, bodyHeight);
            StartSize <= f <= MaxSize
            && (f == s - 1 <==> Exceeds(measure(s), bodyWidth, bodyHeight))
            && (f == s <==> !Exceeds(measure(s), bodyWidth, bodyHeight))
  {
  }

  /**
    A block that touches a bound exactly at the stopping size, without crossing
    either bound, is kept at that size.
   */
  lemma ExactFitIsKept(measure: int -> Extent, bodyWidth: real, bodyHeight: real)
    requires var s := StopSize(measure, bodyWidth, bodyHeight);
             Reaches(measure(s), bodyWidth, bodyHeight) && !Exceeds(measure(s), bodyWidth, bodyHeight)
    ensures FitSize(measure, bodyWidth, bodyHeight) == StopSize(measure, bodyWidth, bodyHeight)
    ensures var e := measure(FitSize(measure, bodyWidth, bodyHeight));
            e.height == bodyHeight || e.width == bodyWidth
  {
  }

  /**
    A step back from a stopping size above 10 lands on a size the loop has
    already measured, and measured strictly inside both bounds.
   */
  lemma StepBackLandsOnMeasuredFit(measure: int -> Extent, bodyWidth: real, bodyHeight: real)
    requires var s := StopSize(measure, bodyWidth, bodyHeight);
             s > StartSize + 1 && Exceeds(measure(s), bodyWidth, bodyHeight)
    ensures var f := FitSize(measure, bodyWidth, bodyHeight);
            StartSize < f < StopSize(measure, bodyWidth, bodyHeight)
            && !Reaches(measure(f), bodyWidth, bodyHeight)
  {
  }

  /**
    Every returned size above the start size is a size whose block crosses
    neither bound; the only way to get a crossing block is the degenerate size 9.
   */
  lemma FitNeverExceedsAboveStart(measure: int -> Extent, bodyWidth: real, bodyHeight: real)
    ensures var f := FitSize(measure, bodyWidth, bodyHeight);
            f > StartSize ==> !Exceeds(measure(f), bodyWidth, bodyHeight)
    ensures FitSize(measure, bodyWidth, bodyHeight) == StartSize
        <==> (StopSize(measure, bodyWidth, bodyHeight) == StartSize + 1
              && Exceeds(measure(StartSize + 1), bodyWidth, bodyHeight))
  {
  }

  /**
    Every size from 10 up to the returned size, except possibly the returned size
    itself, was measured strictly inside both bounds.
   */
  lemma SizesBelowFitAreInside(measure: int -> Extent, bodyWidth: real, bodyHeight: real, k: int)
    requires StartSize < k < FitSize(measure, bodyWidth, bodyHeight)
    ensures !Reaches(measure(k), bodyWidth, bodyHeight)
  {
  }

  /**
    When the block grows strictly in both directions with the size, the returned
    size is the largest one not crossing a bound: every larger size up to 200
    strictly overflows.
   */
  lemma FitIsLargestUnderStrictGrowth(measure: int -> Extent, bodyWidth: real, bodyHeight: real)
    requires forall a, b :: StartSize < a < b <= MaxSize ==>
               measure(a).width < measure(b).width && measure(a).height < measure(b).height
    ensures forall k :: FitSize(measure, bodyWidth, bodyHeight) < k <= MaxSize ==>
              Exceeds(measure(k), bodyWidth, bodyHeight)
  {
  }
}
