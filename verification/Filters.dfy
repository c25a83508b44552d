/** The filter chain.  Every filter sees the value before the update as its "previous". */
module Filters {
  import opened Model

  function Max(a: real, b: real): real {
    if a < b then b else a
  }

  function Abs(r: real): real {
    if r < 0.0 then -r else r
  }

  function ClampReal(v: real, lo: real, hi: real): real {
    if v < lo then lo else if v > hi then hi else v
  }

  function Mix(alpha: real, current: real, previous: real): real {
    alpha * current + (1.0 - alpha) * previous
  }

  /** The mix itself, once alpha has been clamped. */
  function Blend(previous: AttributeValue, current: AttributeValue, a: real): AttributeValue {
    match (previous, current)
    case (Float32(p), Float32(c)) => Float32(Mix(a, c, p))
    case (Float64(p), Float64(c)) => Float64(Mix(a, c, p))
    case (Vec3f(px, py, pz), Vec3f(cx, cy, cz)) => Vec3f(Mix(a, cx, px), Mix(a, cy, py), Mix(a, cz, pz))
    case _ => current
  }

  function ApplyEma(previous: AttributeValue, current: AttributeValue, alpha: real): AttributeValue {
    Blend(previous, current, ClampReal(alpha, 0.0, 1.0))
  }

  /** The distance a deadband compares with its threshold; `None` for pairs it lets through. */
  function Distance(previous: AttributeValue, current: AttributeValue): Option<real> {
    match (previous, current)
    case (Float32(p), Float32(c)) => Some(Abs(c - p))
    case (Float64(p), Float64(c)) => Some(Abs(c - p))
    case (Vec3f(px, py, pz), Vec3f(cx, cy, cz)) => Some((Abs(cx - px) + Abs(cy - py) + Abs(cz - pz)) / 3.0)
    case _ => None
  }

  function ApplyDeadband(previous: AttributeValue, current: AttributeValue, threshold: real): AttributeValue {
    var d := Distance(previous, current);
    if d.Some? && d.value < Max(threshold, 0.0) then previous else current
  }

  function ClampLow(min: real, max: real): real { if min <= max then min else max }

  function ClampHigh(min: real, max: real): real { if min <= max then max else min }

  function ApplyClamp(current: AttributeValue, min: real, max: real): AttributeValue {
    var lo, hi := ClampLow(min, max), ClampHigh(min, max);
    match current
    case Float32(v) => Float32(ClampReal(v, lo, hi))
    case Float64(v) => Float64(ClampReal(v, lo, hi))
    case Vec3f(x, y, z) => Vec3f(ClampReal(x, lo, hi), ClampReal(y, lo, hi), ClampReal(z, lo, hi))
    case _ => current
  }

  function ApplyFilter(previous: AttributeValue, current: AttributeValue, filter: AttributeFilter): AttributeValue {
    match filter
    case Passthrough => current
    case Ema(alpha) => ApplyEma(previous, current, alpha)
    case Deadband(threshold) => ApplyDeadband(previous, current, threshold)
    case Clamp(min, max) => ApplyClamp(current, min, max)
  }

  /** Specification of `apply_filters`. */
  function ApplyFilters(previous: AttributeValue, incoming: AttributeValue,
                        chain: seq<AttributeFilter>): (r: AttributeValue)
    ensures TypeOf(r) == TypeOf(incoming)
    decreases chain
  {
    if chain == [] then incoming
    else ApplyFilters(previous, ApplyFilter(previous, incoming, chain[0]), chain[1..])
  }

  method RunFilters(previous: AttributeValue, incoming: AttributeValue, chain: seq<AttributeFilter>)
    returns (value: AttributeValue)
    ensures value == ApplyFilters(previous, incoming, chain)
  {
    value := incoming;
    for i := 0 to |chain|
      invariant ApplyFilters(previous, incoming, chain) == ApplyFilters(previous, value, chain[i..])
    {
      assert chain[i..][1..] == chain[i + 1..];
      value := ApplyFilter(previous, value, chain[i]);
    }
  }

  lemma {:induction false} FiltersConcat(previous: AttributeValue, incoming: AttributeValue, a: seq<AttributeFilter>,
                                         b: seq<AttributeFilter>)
    ensures ApplyFilters(previous, incoming, a + b) == ApplyFilters(previous, ApplyFilters(previous, incoming, a), b)
    decreases a
  {
    if a == [] {
      assert a + b == b;
    } else {
      assert (a + b)[1..] == a[1..] + b;
      FiltersConcat(previous, ApplyFilter(previous, incoming, a[0]), a[1..], b);
    }
  }

  // ----- Compaction -----

  function AlphaProduct(a: real, b: real): real {
    ClampReal(a, 0.0, 1.0) * ClampReal(b, 0.0, 1.0)
  }

  /** One filter with the effect of f followed by g, when the two are of one kind. */
  function Fuse(f: AttributeFilter, g: AttributeFilter): Option<AttributeFilter> {
    match (f, g)
    case (Ema(a), Ema(b)) => Some(Ema(AlphaProduct(a, b)))
    case (Deadband(a), Deadband(b)) => Some(Deadband(Max(a, b)))
    case (Clamp(a, b), Clamp(c, d)) =>
      var lo, hi := ClampLow(c, d), ClampHigh(c, d);
      Some(Clamp(ClampReal(ClampLow(a, b), lo, hi), ClampReal(ClampHigh(a, b), lo, hi)))
    case _ => None
  }

  function Prepend(f: AttributeFilter, rest: seq<AttributeFilter>): seq<AttributeFilter> {
    if rest != [] && Fuse(f, rest[0]).Some? then [Fuse(f, rest[0]).value] + rest[1..] else [f] + rest
  }

  /** Drop Passthrough filters and fuse neighbours of one kind. */
  function Compact(chain: seq<AttributeFilter>): seq<AttributeFilter>
    decreases chain
  {
    if chain == [] then []
    else if chain[0].Passthrough? then Compact(chain[1..])
    else Prepend(chain[0], Compact(chain[1..]))
  }

  /** No two neighbours of one kind, and no Passthrough. */
  ghost predicate Compacted(chain: seq<AttributeFilter>) {
    && (forall i :: 0 <= i < |chain| ==> !chain[i].Passthrough?)
    && (forall i :: 0 < i < |chain| ==> Fuse(chain[i - 1], chain[i]).None?)
  }

  lemma MixTwice(a: real, b: real, c: real, p: real)
    ensures Mix(b, Mix(a, c, p), p) == Mix(a * b, c, p)
  {
    assert b * (a * c) == (a * b) * c;
    assert b * ((1.0 - a) * p) == b * p - (a * b) * p;
    assert Mix(b, Mix(a, c, p), p) == b * (a * c) + b * ((1.0 - a) * p) + (1.0 - b) * p;
  }

  lemma AlphaProductClamped(a: real, b: real)
    ensures ClampReal(AlphaProduct(a, b), 0.0, 1.0) == AlphaProduct(a, b)
  {
    UnitProduct(ClampReal(a, 0.0, 1.0), ClampReal(b, 0.0, 1.0));
  }

  lemma UnitProduct(a: real, b: real)
    requires 0.0 <= a <= 1.0 && 0.0 <= b <= 1.0
    ensures 0.0 <= a * b <= 1.0
  {
    NonNegative(a, b);
    NonNegative(1.0 - a, b);
    assert (1.0 - a) * b == b - a * b;
  }

  lemma NonNegative(x: real, y: real)
    requires x >= 0.0 && y >= 0.0
    ensures x * y >= 0.0
  {
  }

  lemma BlendTwice(previous: AttributeValue, v: AttributeValue, a: real, b: real, ab: real)
    requires ab == a * b
    ensures Blend(previous, Blend(previous, v, a), b) == Blend(previous, v, ab)
  {
    if previous.Float32? && v.Float32? {
      MixTwice(a, b, v.f32, previous.f32);
    } else if previous.Float64? && v.Float64? {
      MixTwice(a, b, v.f64, previous.f64);
    } else if previous.Vec3f? && v.Vec3f? {
      MixTwice(a, b, v.x, previous.x); MixTwice(a, b, v.y, previous.y); MixTwice(a, b, v.z, previous.z);
    }
  }

  lemma EmaIsBlend(previous: AttributeValue, v: AttributeValue, alpha: real, a: real)
    requires ClampReal(alpha, 0.0, 1.0) == a
    ensures ApplyEma(previous, v, alpha) == Blend(previous, v, a)
  {
  }

  lemma FuseEma(previous: AttributeValue, v: AttributeValue, a: real, b: real)
    ensures ApplyEma(previous, ApplyEma(previous, v, a), b) == ApplyEma(previous, v, AlphaProduct(a, b))
  {
    var a', b', ab := ClampReal(a, 0.0, 1.0), ClampReal(b, 0.0, 1.0), AlphaProduct(a, b);
    AlphaProductClamped(a, b);
    EmaIsBlend(previous, v, a, a');
    EmaIsBlend(previous, Blend(previous, v, a'), b, b');
    EmaIsBlend(previous, v, ab, ab);
    BlendTwice(previous, v, a', b', ab);
  }

  lemma FuseDeadband(previous: AttributeValue, v: AttributeValue, a: real, b: real)
    ensures ApplyDeadband(previous, ApplyDeadband(previous, v, a), b) == ApplyDeadband(previous, v, Max(a, b))
  {
    assert Distance(previous, v).Some? ==> Distance(previous, previous) == Some(0.0);
  }

  /** Clamping to one range after another is clamping to the first range's image in the second. */
  lemma ClampTwice(v: real, a: real, b: real, c: real, d: real)
    ensures var lo, hi := ClampLow(c, d), ClampHigh(c, d);
            var lo', hi' := ClampReal(ClampLow(a, b), lo, hi), ClampReal(ClampHigh(a, b), lo, hi);
            && lo' <= hi'
            && ClampReal(ClampReal(v, ClampLow(a, b), ClampHigh(a, b)), lo, hi) == ClampReal(v, lo', hi')
  {
  }

  lemma FuseClamp(v: AttributeValue, a: real, b: real, c: real, d: real)
    ensures var lo, hi := ClampLow(c, d), ClampHigh(c, d);
            ApplyClamp(ApplyClamp(v, a, b), c, d) ==
            ApplyClamp(v, ClampReal(ClampLow(a, b), lo, hi), ClampReal(ClampHigh(a, b), lo, hi))
  {
    match v
    case Float32(r) => ClampTwice(r, a, b, c, d);
    case Float64(r) => ClampTwice(r, a, b, c, d);
    case Vec3f(x, y, z) => ClampTwice(x, a, b, c, d); ClampTwice(y, a, b, c, d); ClampTwice(z, a, b, c, d);
    case _ =>
  }

  lemma FuseSoundEma(previous: AttributeValue, v: AttributeValue, a: real, b: real)
    ensures ApplyFilter(previous, v, Ema(AlphaProduct(a, b)))
            == ApplyFilter(previous, ApplyFilter(previous, v, Ema(a)), Ema(b))
  {
    FuseEma(previous, v, a, b);
  }

  /** The heart of compaction: a fused filter acts as its two halves in turn. */
  lemma FuseSound(previous: AttributeValue, v: AttributeValue, f: AttributeFilter, g: AttributeFilter)
    requires Fuse(f, g).Some?
    ensures ApplyFilter(previous, v, Fuse(f, g).value) == ApplyFilter(previous, ApplyFilter(previous, v, f), g)
  {
    if f.Ema? {
      FuseSoundEma(previous, v, f.alpha, g.alpha);
    } else if f.Deadband? {
      FuseDeadband(previous, v, f.threshold, g.threshold);
    } else {
      FuseClamp(v, f.min, f.max, g.min, g.max);
    }
  }

  lemma {:induction false} CompactPreserves(previous: AttributeValue, incoming: AttributeValue,
                                            chain: seq<AttributeFilter>)
    ensures ApplyFilters(previous, incoming, Compact(chain)) == ApplyFilters(previous, incoming, chain)
    decreases chain
  {
    if chain != [] {
      var rest := Compact(chain[1..]);
      var next := ApplyFilter(previous, incoming, chain[0]);
      CompactPreserves(previous, next, chain[1..]);
      if !chain[0].Passthrough? {
        if rest != [] && Fuse(chain[0], rest[0]).Some? {
          FuseSound(previous, incoming, chain[0], rest[0]);
        } else {
          assert Prepend(chain[0], rest)[1..] == rest;
        }
      }
    }
  }

  /** Compaction reaches a normal form, never longer than the chain it came from. */
  lemma {:induction false} CompactNormal(chain: seq<AttributeFilter>)
    ensures Compacted(Compact(chain)) && |Compact(chain)| <= |chain|
    decreases chain
  {
    if chain != [] {
      CompactNormal(chain[1..]);
      var rest := Compact(chain[1..]);
      if !chain[0].Passthrough? && rest != [] && Fuse(chain[0], rest[0]).Some? {
        var fused := Fuse(chain[0], rest[0]).value;
        assert forall g :: Fuse(rest[0], g).None? ==> Fuse(fused, g).None?;
      }
    }
  }

  // ----- Clamp as an invariant -----

  ghost predicate RealIn(v: real, lo: real, hi: real) {
    lo <= v <= hi
  }

  /** Every filterable component lies in the range; values no filter touches are not constrained. */
  ghost predicate InRange(v: AttributeValue, lo: real, hi: real) {
    match v
    case Float32(r) => RealIn(r, lo, hi)
    case Float64(r) => RealIn(r, lo, hi)
    case Vec3f(x, y, z) => RealIn(x, lo, hi) && RealIn(y, lo, hi) && RealIn(z, lo, hi)
    case _ => true
  }

  lemma MixAbove(a: real, c: real, p: real, lo: real)
    requires 0.0 <= a <= 1.0 && lo <= c && lo <= p
    ensures lo <= Mix(a, c, p)
  {
    NonNegative(a, c - lo);
    NonNegative(1.0 - a, p - lo);
    assert a * (c - lo) == a * c - a * lo;
    assert (1.0 - a) * (p - lo) == (1.0 - a) * p - lo + a * lo;
  }

  lemma MixInRange(a: real, c: real, p: real, lo: real, hi: real)
    requires 0.0 <= a <= 1.0 && RealIn(c, lo, hi) && RealIn(p, lo, hi)
    ensures RealIn(Mix(a, c, p), lo, hi)
  {
    MixAbove(a, c, p, lo);
    MixAbove(a, -c, -p, -hi);
    assert Mix(a, -c, -p) == -Mix(a, c, p);
  }

  lemma SmoothingInRange(previous: AttributeValue, v: AttributeValue, f: AttributeFilter, lo: real, hi: real)
    requires !f.Clamp? && InRange(previous, lo, hi) && InRange(v, lo, hi)
    ensures InRange(ApplyFilter(previous, v, f), lo, hi)
  {
    if f.Ema? {
      var a := ClampReal(f.alpha, 0.0, 1.0);
      match (previous, v)
      case (Float32(p), Float32(c)) => MixInRange(a, c, p, lo, hi);
      case (Float64(p), Float64(c)) => MixInRange(a, c, p, lo, hi);
      case (Vec3f(px, py, pz), Vec3f(cx, cy, cz)) =>
        MixInRange(a, cx, px, lo, hi); MixInRange(a, cy, py, lo, hi); MixInRange(a, cz, pz, lo, hi);
      case _ =>
    }
  }

  lemma {:induction false} SmoothingChainInRange(previous: AttributeValue, v: AttributeValue,
                                                 chain: seq<AttributeFilter>, lo: real, hi: real)
    requires forall i :: 0 <= i < |chain| ==> !chain[i].Clamp?
    requires InRange(previous, lo, hi) && InRange(v, lo, hi)
    ensures InRange(ApplyFilters(previous, v, chain), lo, hi)
    decreases chain
  {
    if chain != [] {
      SmoothingInRange(previous, v, chain[0], lo, hi);
      SmoothingChainInRange(previous, ApplyFilter(previous, v, chain[0]), chain[1..], lo, hi);
    }
  }

  /** i is the position of the last Clamp in the chain. */
  ghost predicate LastClamp(chain: seq<AttributeFilter>, i: nat) {
    i < |chain| && chain[i].Clamp? && forall j :: i < j < |chain| ==> !chain[j].Clamp?
  }

  /** A chain keeps a previous value in its last Clamp's range, whatever comes in and whatever
      smoothing follows the Clamp. */
  lemma LastClampHolds(previous: AttributeValue, incoming: AttributeValue, chain: seq<AttributeFilter>, i: nat)
    requires LastClamp(chain, i)
    requires var lo, hi := ClampLow(chain[i].min, chain[i].max), ClampHigh(chain[i].min, chain[i].max);
             InRange(previous, lo, hi)
    ensures var lo, hi := ClampLow(chain[i].min, chain[i].max), ClampHigh(chain[i].min, chain[i].max);
            InRange(ApplyFilters(previous, incoming, chain), lo, hi)
  {
    var lo, hi := ClampLow(chain[i].min, chain[i].max), ClampHigh(chain[i].min, chain[i].max);
    var before := ApplyFilters(previous, incoming, chain[..i]);
    assert chain == chain[..i] + chain[i..];
    FiltersConcat(previous, incoming, chain[..i], chain[i..]);
    assert chain[i..][1..] == chain[i + 1..];
    SmoothingChainInRange(previous, ApplyFilter(previous, before, chain[i]), chain[i + 1..], lo, hi);
  }

  // ----- What each filter does -----

  /** The numbers of a value that filters look at. */
  function Numbers(v: AttributeValue): seq<real> {
    match v
    case Float32(r) => [r]
    case Float64(r) => [r]
    case Vec3f(x, y, z) => [x, y, z]
    case _ => []
  }

  function Apart(a: real, b: real): real {
    if a < b then b - a else a - b
  }

  /** r is the point of the range from lo to hi nearest to v. */
  ghost predicate NearestIn(v: real, lo: real, hi: real, r: real) {
    RealIn(r, lo, hi) && forall x :: RealIn(x, lo, hi) ==> Apart(v, r) <= Apart(v, x)
  }

  lemma ClampIsNearest(v: real, lo: real, hi: real)
    requires lo <= hi
    ensures NearestIn(v, lo, hi, ClampReal(v, lo, hi))
  {
  }

  /** A Clamp takes every number to the nearest one between its bounds, in whichever order they are given. */
  lemma ClampMeaning(previous: AttributeValue, v: AttributeValue, a: real, b: real, lo: real, hi: real, i: nat)
    requires lo <= hi && ((lo, hi) == (a, b) || (lo, hi) == (b, a))
    ensures var r := ApplyFilter(previous, v, Clamp(a, b));
            && TypeOf(r) == TypeOf(v) && (Numbers(v) == [] ==> r == v)
            && (i < |Numbers(v)| ==> NearestIn(Numbers(v)[i], lo, hi, Numbers(r)[i]))
  {
    if i < |Numbers(v)| { ClampIsNearest(Numbers(v)[i], lo, hi); }
  }

  predicate Comparable(previous: AttributeValue, v: AttributeValue) {
    TypeOf(previous) == TypeOf(v) && Numbers(v) != []
  }

  lemma MixIsStep(a: real, c: real, p: real)
    ensures Mix(a, c, p) - p == a * (c - p)
  {
  }

  /** An Ema moves every number the fraction alpha of the way, with alpha taken into the unit interval. */
  lemma EmaMeaning(previous: AttributeValue, v: AttributeValue, alpha: real, i: nat)
    ensures var r := ApplyFilter(previous, v, Ema(alpha));
            && TypeOf(r) == TypeOf(v) && (!Comparable(previous, v) ==> r == v)
            && (Comparable(previous, v) && i < |Numbers(v)| ==>
                  exists a :: NearestIn(alpha, 0.0, 1.0, a)
                    && Numbers(r)[i] - Numbers(previous)[i] == a * (Numbers(v)[i] - Numbers(previous)[i]))
  {
    var a := ClampReal(alpha, 0.0, 1.0);
    ClampIsNearest(alpha, 0.0, 1.0);
    EmaIsBlend(previous, v, alpha, a);
    if Comparable(previous, v) && i < |Numbers(v)| { MixIsStep(a, Numbers(v)[i], Numbers(previous)[i]); }
  }

  /** The sum of the distances between two lists of numbers. */
  function Gaps(a: seq<real>, b: seq<real>): real
    requires |a| == |b|
  {
    if a == [] then 0.0 else Apart(a[0], b[0]) + Gaps(a[1..], b[1..])
  }

  lemma GapsOfThree(a: seq<real>, b: seq<real>)
    requires |a| == |b| == 3
    ensures Gaps(a, b) == Apart(a[0], b[0]) + Apart(a[1], b[1]) + Apart(a[2], b[2])
  {
    assert Gaps(a[1..], b[1..]) == Apart(a[1], b[1]) + Gaps(a[1..][1..], b[1..][1..]);
    assert Gaps(a[1..][1..], b[1..][1..]) == Apart(a[2], b[2]) + Gaps([], []);
  }

  lemma GapsOfOne(a: seq<real>, b: seq<real>)
    requires |a| == |b| == 1
    ensures Gaps(a, b) == Apart(a[0], b[0])
  {
    assert Gaps(a[1..], b[1..]) == 0.0;
  }

  lemma DistanceIsMean(previous: AttributeValue, v: AttributeValue)
    requires Comparable(previous, v)
    ensures var d := Distance(previous, v);
            d.Some? && d.value >= 0.0 && Gaps(Numbers(previous), Numbers(v)) == d.value * |Numbers(v)| as real
  {
    if previous.Vec3f? { GapsOfThree(Numbers(previous), Numbers(v)); }
    else { GapsOfOne(Numbers(previous), Numbers(v)); }
  }

  lemma TimesBelow(x: real, y: real, n: int)
    requires n == 1 || n == 3
    ensures x < y <==> x * n as real < y * n as real
  {
  }

  /** A Deadband keeps the previous value exactly when its numbers lie less than the threshold away on average. */
  lemma DeadbandMeaning(previous: AttributeValue, v: AttributeValue, threshold: real)
    ensures ApplyFilter(previous, v, Deadband(threshold)) ==
            if Comparable(previous, v) && Gaps(Numbers(previous), Numbers(v)) < threshold * |Numbers(v)| as real
            then previous else v
  {
    if Comparable(previous, v) {
      DistanceIsMean(previous, v);
      TimesBelow(Distance(previous, v).value, threshold, |Numbers(v)|);
    }
  }

  /** The chain runs from first to last, and every filter is given the value before the update. */
  lemma ChainMeaning(previous: AttributeValue, v: AttributeValue, chain: seq<AttributeFilter>, last: AttributeFilter)
    ensures ApplyFilters(previous, v, []) == v
    ensures ApplyFilters(previous, v, chain + [last])
            == ApplyFilter(previous, ApplyFilters(previous, v, chain), last)
    ensures ApplyFilter(previous, v, Passthrough) == v
  {
    FiltersConcat(previous, v, chain, [last]);
    assert [last][1..] == [];
  }
}
