/** The two way-latency allocators nested in `make_design_configs`: each lays
    out one latency per way of an `assoc`-way cache, fast ways first. */
module Buckets {
  import opened Errors

  /** Python's `[x] * n`: `n` copies of `x`, and the empty list when `n <= 0`. */
  function Repeat(x: int, n: int): (r: seq<int>)
    ensures |r| == if n < 0 then 0 else n
    ensures forall i :: 0 <= i < |r| ==> r[i] == x
  {
    if n <= 0 then [] else [x] + Repeat(x, n - 1)
  }

  function Min(a: int, b: int): int {
    if a <= b then a else b
  }

  /** The fast-ways count `f` both allocators resolve: `fast_ways`, or
      `assoc // 2` when it is None. Dafny's `/` by the positive divisor 2
      rounds down, as Python's `//` does, also for a negative `assoc`. */
  function FastWays(assoc: int, fastWays: Option<int>): int {
    match fastWays
    case None => assoc / 2
    case Some(f) => f
  }

  /** The range both allocators accept for `f`. */
  predicate ValidSplit(assoc: int, f: int) {
    0 <= f <= assoc
  }

  /** Reference layout of `assoc` ways: the first `f` hold `fastVal`, the others `slowVal`. */
  ghost function Split(assoc: nat, f: int, fastVal: int, slowVal: int): seq<int> {
    seq(assoc, i => if i < f then fastVal else slowVal)
  }

  /** Reference layout with priority ways: the first `p` hold `difference`,
      the ways up to `f` hold `fastVal`, the others `slowVal`. */
  ghost function PrioritySplit(assoc: nat, p: int, f: int, difference: int, fastVal: int, slowVal: int): seq<int> {
    seq(assoc, i => if i < p then difference else if i < f then fastVal else slowVal)
  }

  /** The same value in every one of `assoc` ways. */
  ghost function Uniform(assoc: nat, x: int): seq<int> {
    seq(assoc, _ => x)
  }

  /** `two_bucket(fast_val, slow_val)`: fails exactly when `f` is outside
      [0, assoc]; otherwise `f` fast ways followed by `assoc - f` slow ways. */
  function TwoBucket(assoc: int, fastWays: Option<int>, fastVal: int, slowVal: int): (r: Result<seq<int>>)
    ensures var f := FastWays(assoc, fastWays);
      r == if ValidSplit(assoc, f) then Ok(Split(assoc, f, fastVal, slowVal))
           else Err(InvalidFastWays(f, assoc))
  {
    var f := FastWays(assoc, fastWays);
    if !(0 <= f <= assoc) then
      Err(InvalidFastWays(f, assoc))
    else
      var s := Repeat(fastVal, f) + Repeat(slowVal, assoc - f);
      assert s == Split(assoc, f, fastVal, slowVal);
      Ok(s)
  }

  /** `three_bucket(priorities, difference, fast_val, slow_val)`: the same
      check on `f`, then `p = min(priorities, f)` ways of `difference`, the
      rest of the `f` fast ways, then the slow ways. A negative `priorities`
      (which the dispatcher never passes) lengthens the list, as Python's
      list repetition does. */
  function ThreeBucket(assoc: int, fastWays: Option<int>, priorities: int, difference: int,
                       fastVal: int, slowVal: int): (r: Result<seq<int>>)
    ensures var f := FastWays(assoc, fastWays);
      !ValidSplit(assoc, f) ==> r == Err(InvalidFastWays(f, assoc))
    ensures var f := FastWays(assoc, fastWays);
      ValidSplit(assoc, f) && priorities >= 0 ==>
        r == Ok(PrioritySplit(assoc, Min(priorities, f), f, difference, fastVal, slowVal))
    ensures var f := FastWays(assoc, fastWays);
      ValidSplit(assoc, f) && priorities < 0 ==> r.Ok? && |r.value| == assoc - priorities
  {
    var f := FastWays(assoc, fastWays);
    if !(0 <= f <= assoc) then
      Err(InvalidFastWays(f, assoc))
    else
      var p := Min(priorities, f);
      var s := Repeat(difference, p) + Repeat(fastVal, f - p) + Repeat(slowVal, assoc - f);
      assert priorities >= 0 ==> s == PrioritySplit(assoc, p, f, difference, fastVal, slowVal);
      Ok(s)
  }

  /** With no priority ways, three_bucket lays out exactly what two_bucket does. */
  lemma {:induction false} ThreeBucketWithoutPriorities(assoc: int, fastWays: Option<int>, difference: int, fastVal: int, slowVal: int)
    ensures ThreeBucket(assoc, fastWays, 0, difference, fastVal, slowVal)
         == TwoBucket(assoc, fastWays, fastVal, slowVal)
  {
    var f := FastWays(assoc, fastWays);
    if ValidSplit(assoc, f) {
      assert PrioritySplit(assoc, 0, f, difference, fastVal, slowVal) == Split(assoc, f, fastVal, slowVal);
    }
  }

  /** Past the priority ways, three_bucket agrees with two_bucket way by way. */
  lemma ThreeBucketAgreesPastPriorities(assoc: int, fastWays: Option<int>, priorities: nat,
                                        difference: int, fastVal: int, slowVal: int, i: int)
    requires TwoBucket(assoc, fastWays, fastVal, slowVal).Ok?
    requires Min(priorities, FastWays(assoc, fastWays)) <= i < assoc
    ensures ThreeBucket(assoc, fastWays, priorities, difference, fastVal, slowVal).Ok?
    ensures ThreeBucket(assoc, fastWays, priorities, difference, fastVal, slowVal).value[i]
         == TwoBucket(assoc, fastWays, fastVal, slowVal).value[i]
  {
  }

  /** `fast_ways = 0` makes every way slow and `fast_ways = assoc` every way
      fast; neither is an error. */
  lemma {:induction false} TwoBucketBoundaries(assoc: nat, fastVal: int, slowVal: int)
    ensures TwoBucket(assoc, Some(0), fastVal, slowVal) == Ok(Uniform(assoc, slowVal))
    ensures TwoBucket(assoc, Some(assoc), fastVal, slowVal) == Ok(Uniform(assoc, fastVal))
  {
    assert Split(assoc, 0, fastVal, slowVal) == Uniform(assoc, slowVal);
    assert Split(assoc, assoc, fastVal, slowVal) == Uniform(assoc, fastVal);
  }

  /** `[x] * assoc`, for a non-negative `assoc`, is the uniform layout. */
  lemma RepeatIsUniform(x: int, assoc: nat)
    ensures Repeat(x, assoc) == Uniform(assoc, x)
  {
  }
}
