/** The summary of a bucketed distribution: `extract_value` and `_gauge_line` in
    src/lib/metric_ingest.py, read against the samples the buckets count. Floats are
    exact reals. */
module Histogram {
  import opened Wrappers

  datatype BucketOptions =
    | Exponential(numFiniteBuckets: int, growthFactor: real, scale: real)
    | Linear(numFinite: int, offset: Option<real>, width: Option<real>)
    | Explicit(bounds: seq<real>)

  /** A `distributionValue`; `mean` is left out by the API when it is zero. */
  datatype DistributionPoint = DistributionPoint(count: int, mean: Option<real>, options: BucketOptions,
                                                 bucketCounts: seq<nat>)

  datatype Gauge = Gauge(min: real, max: real, count: int, sum: real)

  function Power(base: real, exponent: nat): real {
    if exponent == 0 then 1.0 else base * Power(base, exponent - 1)
  }

  // ---- The summary ----

  /** The first non-empty bucket, or the last bucket when all are empty. */
  function FirstNonEmpty(bucketCounts: seq<nat>): (index: int)
    ensures bucketCounts == [] ==> index == -1
    ensures bucketCounts != [] ==> 0 <= index < |bucketCounts|
  {
    if bucketCounts == [] then -1
    else if bucketCounts[0] > 0 || |bucketCounts| == 1 then 0
    else 1 + FirstNonEmpty(bucketCounts[1..])
  }

  /** A bucket branch replaces the mean by bucket bounds. */
  predicate BoundsAreSet(point: DistributionPoint) {
    point.count != 0 && point.count != 1 && point.count != 2 && FirstNonEmpty(point.bucketCounts) != 0 &&
    match point.options
    case Exponential(n, _, _) => |point.bucketCounts| < n
    case Linear(n, offset, width) => |point.bucketCounts| < n && offset.Some? && width.Some?
    case Explicit(bounds) => bounds != []
  }

  /** Python's `base ** exponent`. */
  function PowerAt(base: real, exponent: int): real
    requires exponent < 0 ==> base != 0.0
  {
    if exponent >= 0 then Power(base, exponent) else 1.0 / NonZeroPower(base, -exponent)
  }

  function NonZeroPower(base: real, exponent: nat): (power: real)
    requires base != 0.0
    ensures power == Power(base, exponent) && power != 0.0
  {
    if exponent == 0 then 1.0 else base * NonZeroPower(base, exponent - 1)
  }

  /** Evaluating a bound raises: a power of zero with a negative exponent, or an index
      before the first bound. It takes a point without buckets. */
  predicate BoundRaises(options: BucketOptions, j: int) {
    (options.Exponential? && j < 0 && options.growthFactor == 0.0) || (options.Explicit? && j < -|options.bounds|)
  }

  function LinearEdge(offset: real, width: real, j: int): real { offset + width * (j as real) }

  /** What the branches compute for a bucket index, negative ones included. */
  function Bound(options: BucketOptions, j: int): real
    requires options.Explicit? ==> options.bounds != []
    requires options.Linear? ==> options.offset.Some? && options.width.Some?
    requires !BoundRaises(options, j)
  {
    match options
    case Exponential(_, growth, scale) => scale * PowerAt(growth, j)
    case Linear(_, offset, width) => LinearEdge(offset.value, width.value, j)
    case Explicit(bounds) =>
      if j < 0 then bounds[|bounds| + j] else if j < |bounds| then bounds[j] else bounds[|bounds| - 1]
  }

  /** The boundaries between buckets: bucket `i` is what lies from edge `i - 1` on and
      below edge `i`; the first bucket has no lower edge, the last no upper edge. */
  function Edge(options: BucketOptions, j: nat): real
    requires options.Explicit? ==> j < |options.bounds|
    requires options.Linear? ==> options.offset.Some? && options.width.Some?
  {
    match options
    case Exponential(_, growth, scale) => scale * Power(growth, j)
    case Linear(_, offset, width) => LinearEdge(offset.value, width.value, j)
    case Explicit(bounds) => bounds[j]
  }

  function Mean(point: DistributionPoint): real {
    if point.mean.Some? then point.mean.value else 0.0
  }

  /** The sum is worked out from the mean. */
  function ReportedSum(point: DistributionPoint): real {
    if point.mean.Some? then point.mean.value * (point.count as real) else 0.0
  }

  predicate Raises(point: DistributionPoint) {
    && BoundsAreSet(point)
    && (BoundRaises(point.options, FirstNonEmpty(point.bucketCounts) - 1)
       || BoundRaises(point.options, |point.bucketCounts| - 1))
  }

  /** The reported bounds, before scaling. */
  function Bounds(point: DistributionPoint): (real, real)
    requires BoundsAreSet(point) && !Raises(point)
  {
    (Bound(point.options, FirstNonEmpty(point.bucketCounts) - 1), Bound(point.options, |point.bucketCounts| - 1))
  }

  /** The gauge reported for a point, or nothing for an empty one. */
  function Summarise(point: DistributionPoint, percent: bool): Option<Gauge>
    requires !Raises(point)
  {
    if point.count == 0 then None
    else
      var (low, high) := if BoundsAreSet(point) then Bounds(point) else (Mean(point), Mean(point));
      Some(Scaled(Gauge(low, high, point.count, ReportedSum(point)), percent))
  }

  function Scale(x: real, percent: bool): real {
    if percent then 100.0 * x else x
  }

  /** `_gauge_line`: percentages given as fractions are scaled. */
  function Scaled(gauge: Gauge, percent: bool): Gauge {
    Gauge(Scale(gauge.min, percent), Scale(gauge.max, percent), gauge.count, Scale(gauge.sum, percent))
  }

  // ---- What is reported, kind by kind ----

  /** The first bucket that is not empty, or the last one. */
  predicate IsFirst(bucketCounts: seq<nat>, first: nat) {
    && first < |bucketCounts| && (forall k :: 0 <= k < first ==> bucketCounts[k] == 0)
    && (bucketCounts[first] > 0 || first == |bucketCounts| - 1)
  }

  lemma {:induction false} FirstNonEmptyIs(bucketCounts: seq<nat>, first: nat)
    requires IsFirst(bucketCounts, first)
    ensures FirstNonEmpty(bucketCounts) == first
  {
    if first > 0 {
      assert forall k :: 0 <= k < first - 1 ==> bucketCounts[1..][k] == bucketCounts[k + 1];
      FirstNonEmptyIs(bucketCounts[1..], first - 1);
    }
  }

  lemma {:induction false} PowerIsPower(base: real, m: nat, n: nat)
    ensures Power(base, 0) == 1.0 && Power(base, 1) == base
    ensures Power(base, m + n) == Power(base, m) * Power(base, n)
  {
    assert Power(base, 1) == base * Power(base, 0);
    if m > 0 {
      PowerIsPower(base, m - 1, n);
      TimesIsAssociative(base, Power(base, m - 1), Power(base, n));
    }
  }

  lemma TimesIsAssociative(a: real, b: real, c: real)
    ensures a * (b * c) == (a * b) * c
  {
  }

  predicate IsGauge(gauge: Option<Gauge>, low: real, high: real, point: DistributionPoint, percent: bool) {
    && gauge.Some? && gauge.value.count == point.count
    && gauge.value.min == (if percent then low * 100.0 else low)
    && gauge.value.max == (if percent then high * 100.0 else high)
    && gauge.value.sum == if percent then ReportedSum(point) * 100.0 else ReportedSum(point)
  }

  /** Exponential buckets set the bounds for more than two samples with an empty first bucket
      and fewer counts than finite buckets; otherwise both bounds are the mean. */
  lemma ExponentialSummary(point: DistributionPoint, first: nat, percent: bool)
    requires point.options.Exponential? && IsFirst(point.bucketCounts, first)
    requires point.count > 0 && !Raises(point)
    ensures var Exponential(n, growth, scale) := point.options;
            if point.count > 2 && first > 0 && |point.bucketCounts| < n
            then IsGauge(Summarise(point, percent), scale * Power(growth, first - 1),
                         scale * Power(growth, |point.bucketCounts| - 1), point, percent)
            else IsGauge(Summarise(point, percent), Mean(point), Mean(point), point, percent)
  {
    FirstNonEmptyIs(point.bucketCounts, first);
  }

  /** The same for linear buckets, if both offset and width are there. */
  lemma LinearSummary(point: DistributionPoint, first: nat, percent: bool)
    requires point.options.Linear? && IsFirst(point.bucketCounts, first)
    requires point.count > 0 && !Raises(point)
    ensures var Linear(n, offset, width) := point.options;
            if point.count > 2 && first > 0 && |point.bucketCounts| < n && offset.Some? && width.Some?
            then IsGauge(Summarise(point, percent), offset.value + width.value * ((first - 1) as real),
                         offset.value + width.value * ((|point.bucketCounts| - 1) as real), point, percent)
            else IsGauge(Summarise(point, percent), Mean(point), Mean(point), point, percent)
  {
    FirstNonEmptyIs(point.bucketCounts, first);
  }

  /** Explicit buckets set the bounds for more than two samples with an empty first bucket;
      counts beyond the last bound are reported with that bound. */
  lemma ExplicitSummary(point: DistributionPoint, first: nat, percent: bool)
    requires point.options.Explicit? && IsFirst(point.bucketCounts, first)
    requires point.count > 0 && !Raises(point)
    ensures var bounds, last := point.options.bounds, |point.bucketCounts| - 1;
            if point.count > 2 && first > 0 && bounds != []
            then IsGauge(Summarise(point, percent), bounds[if first <= |bounds| then first - 1 else |bounds| - 1],
                         bounds[if last < |bounds| then last else |bounds| - 1], point, percent)
            else IsGauge(Summarise(point, percent), Mean(point), Mean(point), point, percent)
  {
    FirstNonEmptyIs(point.bucketCounts, first);
  }

  /** Working out the bounds raises only without buckets: for a growth factor of zero, or a
      single explicit bound. */
  lemma RaisesIff(point: DistributionPoint)
    ensures Raises(point)
            <==> && point.count !in {0, 1, 2} && point.bucketCounts == []
                 && ((point.options.Exponential? && point.options.numFiniteBuckets > 0
                      && point.options.growthFactor == 0.0)
                     || (point.options.Explicit? && |point.options.bounds| == 1))
  {
  }

  /** Without buckets the indices of the bounds are -2 and -1, counted from the end of the
      explicit ones. */
  lemma NoBucketsSummary(point: DistributionPoint, percent: bool)
    requires point.bucketCounts == [] && point.count > 2 && BoundsAreSet(point) && !Raises(point)
    ensures match point.options
            case Exponential(_, growth, scale) =>
              growth != 0.0
              && IsGauge(Summarise(point, percent), scale * (1.0 / (growth * growth)), scale * (1.0 / growth),
                         point, percent)
            case Linear(_, offset, width) =>
              IsGauge(Summarise(point, percent), offset.value + width.value * -2.0, offset.value + width.value * -1.0,
                      point, percent)
            case Explicit(bounds) =>
              IsGauge(Summarise(point, percent), bounds[|bounds| - 2], bounds[|bounds| - 1], point, percent)
  {
    if point.options.Exponential? { FirstPowers(point.options.growthFactor); }
  }

  lemma FirstPowers(base: real)
    requires base != 0.0
    ensures PowerAt(base, -1) == 1.0 / base && PowerAt(base, -2) == 1.0 / (base * base)
  {
    assert NonZeroPower(base, 1) == base * NonZeroPower(base, 0) == base;
    assert NonZeroPower(base, 2) == base * NonZeroPower(base, 1);
  }

  /** Mean and sum are those of the API, and zero without a mean. */
  lemma MeanAndSum(point: DistributionPoint)
    ensures point.mean.Some? ==> Mean(point) == point.mean.value
                                 && ReportedSum(point) == (point.count as real) * point.mean.value
    ensures point.mean.None? ==> Mean(point) == ReportedSum(point) == 0.0
  {
  }

  method FindMinBucket(bucketCounts: seq<nat>) returns (minBucket: int)
    ensures minBucket == FirstNonEmpty(bucketCounts)
  {
    minBucket := |bucketCounts| - 1;
    assert bucketCounts[0..] == bucketCounts;
    for index := 0 to |bucketCounts|
      invariant minBucket == |bucketCounts| - 1
      invariant index < |bucketCounts| ==> FirstNonEmpty(bucketCounts) == index + FirstNonEmpty(bucketCounts[index..])
      invariant index == |bucketCounts| ==> FirstNonEmpty(bucketCounts) == |bucketCounts| - 1
    {
      if bucketCounts[index] > 0 {
        minBucket := index;
        break;
      }
      if index + 1 < |bucketCounts| {
        assert bucketCounts[index..][1..] == bucketCounts[index + 1..];
      }
    }
  }

  // ---- A point as the API sends it ----

  /** The bucket options with every key that may be missing; `NoBuckets` names none of the
      three kinds. */
  datatype SentOptions =
    | SentExponential(numFiniteBuckets: Option<int>, growthFactor: Option<real>, scale: Option<real>)
    | SentLinear(numFinite: Option<int>, offset: Option<real>, width: Option<real>)
    | SentExplicit(bounds: Option<seq<real>>)
    | NoBuckets

  datatype SentPoint = SentPoint(count: int, mean: Option<real>, options: Option<SentOptions>,
                                 bucketCounts: Option<seq<nat>>)

  /** Reading the point runs into a missing key that it needs. */
  predicate KeyIsMissing(sent: SentPoint) {
    sent.count != 0 && sent.count != 1 && sent.count != 2 &&
    (sent.options.None? || sent.bucketCounts.None? ||
     match sent.options.value
     case SentExponential(n, growth, scale) =>
       || n.None?
       || (|sent.bucketCounts.value| < n.value && FirstNonEmpty(sent.bucketCounts.value) != 0
           && (growth.None? || scale.None?))
     case SentLinear(n, _, _) => n.None?
     case SentExplicit(bounds) => bounds.None?
     case NoBuckets => false)
  }

  /** The point with the keys that are not needed filled in. Linear buckets without offset
      never set the bounds, like no buckets at all. */
  function Read(sent: SentPoint): DistributionPoint {
    DistributionPoint(
      sent.count, sent.mean,
      match sent.options
      case None => Linear(0, None, None)
      case Some(SentExponential(n, growth, scale)) => Exponential(Else(n, 0), Else(growth, 0.0), Else(scale, 0.0))
      case Some(SentLinear(n, offset, width)) => Linear(Else(n, 0), offset, width)
      case Some(SentExplicit(bounds)) => Explicit(Else(bounds, []))
      case Some(NoBuckets) => Linear(0, None, None),
      Else(sent.bucketCounts, []))
  }

  /** A point with all its keys is read as it is; one of no known kind sets no bounds. */
  lemma ReadIsFaithful(count: int, mean: Option<real>, bucketCounts: seq<nat>, n: int, a: real, b: real,
                       offset: Option<real>, width: Option<real>, bounds: seq<real>)
    ensures Read(SentPoint(count, mean, Some(SentExponential(Some(n), Some(a), Some(b))), Some(bucketCounts)))
            == DistributionPoint(count, mean, Exponential(n, a, b), bucketCounts)
    ensures Read(SentPoint(count, mean, Some(SentLinear(Some(n), offset, width)), Some(bucketCounts)))
            == DistributionPoint(count, mean, Linear(n, offset, width), bucketCounts)
    ensures Read(SentPoint(count, mean, Some(SentExplicit(Some(bounds))), Some(bucketCounts)))
            == DistributionPoint(count, mean, Explicit(bounds), bucketCounts)
    ensures var point := Read(SentPoint(count, mean, Some(NoBuckets), Some(bucketCounts)));
            point.count == count && point.mean == mean && !BoundsAreSet(point)
  {
  }

  /** Which missing keys matter: none for up to two samples; else the options, the counts, and
      what the kind of buckets needs, growth and scale only if the bounds are worked out. */
  lemma KeysNeeded(sent: SentPoint)
    ensures sent.count in {0, 1, 2} ==> !KeyIsMissing(sent)
    ensures sent.count !in {0, 1, 2} && (sent.options.None? || sent.bucketCounts.None?) ==> KeyIsMissing(sent)
    ensures sent.count !in {0, 1, 2} && sent.options.Some? && sent.bucketCounts.Some? ==>
              (KeyIsMissing(sent)
               <==> match sent.options.value
                    case NoBuckets => false
                    case SentExplicit(bounds) => bounds.None?
                    case SentLinear(n, _, _) => n.None?
                    case SentExponential(n, growth, scale) =>
                      n.None? || (BoundsAreSet(Read(sent)) && (growth.None? || scale.None?)))
  {
  }

  function Else<T>(option: Option<T>, other: T): T {
    if option.Some? then option.value else other
  }

  /** `extract_value` for distributions. */
  method ExtractValue(sent: SentPoint, percent: bool) returns (raised: bool, gauge: Option<Gauge>)
    ensures raised <==> KeyIsMissing(sent) || Raises(Read(sent))
    ensures !raised ==> gauge == Summarise(Read(sent), percent)
  {
    raised, gauge := false, None;
    var count := sent.count;
    var sum, low, high := 0.0, 0.0, 0.0;
    if count == 0 {
      return;
    } else if sent.mean.Some? {
      sum := sent.mean.value * (count as real);
      low := sent.mean.value;
      high := sent.mean.value;
    }
    assert sum == ReportedSum(Read(sent));
    if count == 1 || count == 2 {
      gauge := Some(Scaled(Gauge(low, high, count, sum), percent));
      return;
    }
    if sent.options.None? || sent.bucketCounts.None? {
      return true, None;
    }
    raised, low, high := BucketBounds(sent, low);
    if !raised {
      gauge := Some(Scaled(Gauge(low, high, count, sum), percent));
    }
  }

  /** What a branch must leave behind: an exception, the bounds, or the mean. */
  predicate BranchGives(sent: SentPoint, mean: real, raised: bool, low: real, high: real) {
    && (raised <==> KeyIsMissing(sent) || Raises(Read(sent)))
    && (!raised ==> (low, high) == if BoundsAreSet(Read(sent)) then Bounds(Read(sent)) else (mean, mean))
  }

  /** Buckets are looked at. */
  predicate UsesBuckets(sent: SentPoint) {
    sent.count != 0 && sent.count != 1 && sent.count != 2 && sent.options.Some? && sent.bucketCounts.Some?
  }

  /** The bucket branches of `extract_value`. */
  method BucketBounds(sent: SentPoint, mean: real) returns (raised: bool, low: real, high: real)
    requires UsesBuckets(sent)
    ensures BranchGives(sent, mean, raised, low, high)
  {
    var minBucket := FindMinBucket(sent.bucketCounts.value);
    match sent.options.value {
    case SentExponential(_, _, _) =>
      raised, low, high := ExponentialBounds(sent, mean, minBucket);
    case SentLinear(_, _, _) =>
      raised, low, high := LinearBounds(sent, mean, minBucket);
    case SentExplicit(_) =>
      raised, low, high := ExplicitBounds(sent, mean, minBucket);
    case NoBuckets =>
      raised, low, high := false, mean, mean;
    }
  }

  lemma AreBounds(point: DistributionPoint, low: real, high: real)
    requires BoundsAreSet(point) && !Raises(point)
    requires low == Bound(point.options, FirstNonEmpty(point.bucketCounts) - 1)
    requires high == Bound(point.options, |point.bucketCounts| - 1)
    ensures (low, high) == Bounds(point)
  {
  }

  method ExponentialBounds(sent: SentPoint, mean: real, minBucket: int) returns (raised: bool, low: real, high: real)
    requires UsesBuckets(sent) && sent.options.value.SentExponential?
    requires minBucket == FirstNonEmpty(sent.bucketCounts.value)
    ensures BranchGives(sent, mean, raised, low, high)
  {
    var maxBucket := |sent.bucketCounts.value| - 1;
    var SentExponential(numFinite, growth, scale) := sent.options.value;
    if numFinite.None? {
      return true, mean, mean;
    }
    if |sent.bucketCounts.value| >= numFinite.value || minBucket == 0 {
      return false, mean, mean;
    }
    if growth.None? || scale.None? || (minBucket < 0 && growth.value == 0.0) {
      return true, mean, mean;
    }
    low := scale.value * PowerAt(growth.value, minBucket - 1);
    high := scale.value * PowerAt(growth.value, maxBucket);
    AreBounds(Read(sent), low, high);
    return false, low, high;
  }

  method LinearBounds(sent: SentPoint, mean: real, minBucket: int) returns (raised: bool, low: real, high: real)
    requires UsesBuckets(sent) && sent.options.value.SentLinear? && minBucket == FirstNonEmpty(sent.bucketCounts.value)
    ensures BranchGives(sent, mean, raised, low, high)
  {
    var maxBucket := |sent.bucketCounts.value| - 1;
    var SentLinear(numFinite, offset, width) := sent.options.value;
    if numFinite.None? {
      return true, mean, mean;
    }
    if |sent.bucketCounts.value| >= numFinite.value || minBucket == 0 || offset.None? || width.None? {
      return false, mean, mean;
    }
    low, high := LinearEdge(offset.value, width.value, minBucket - 1), LinearEdge(offset.value, width.value, maxBucket);
    AreBounds(Read(sent), low, high);
    return false, low, high;
  }

  method ExplicitBounds(sent: SentPoint, mean: real, minBucket: int) returns (raised: bool, low: real, high: real)
    requires UsesBuckets(sent) && sent.options.value.SentExplicit?
    requires minBucket == FirstNonEmpty(sent.bucketCounts.value)
    ensures BranchGives(sent, mean, raised, low, high)
  {
    var maxBucket := |sent.bucketCounts.value| - 1;
    var bounds := sent.options.value.bounds;
    if bounds.None? {
      return true, mean, mean;
    }
    if minBucket == 0 || bounds.value == [] {
      return false, mean, mean;
    }
    if minBucket - 1 < -|bounds.value| {
      return true, mean, mean;
    }
    low, high := BoundOrLast(bounds.value, minBucket - 1), BoundOrLast(bounds.value, maxBucket);
    AreBounds(Read(sent), low, high);
    return false, low, high;
  }

  /** `bounds[index] if index < len(bounds) else bounds[-1]`, negative indices counting from
      the end. */
  function BoundOrLast(bounds: seq<real>, index: int): real
    requires bounds != [] && -|bounds| <= index
  {
    if index >= |bounds| then bounds[|bounds| - 1] else if index >= 0 then bounds[index] else bounds[|bounds| + index]
  }

  // ---- The samples behind a histogram ----

  /** How many edges there are; the last bucket is the overflow bucket above them all. */
  function Edges(options: BucketOptions): int {
    match options
    case Exponential(n, _, _) => n + 1
    case Linear(n, _, _) => n + 1
    case Explicit(bounds) => |bounds|
  }

  predicate WellFormedOptions(options: BucketOptions) {
    Edges(options) >= 1 &&
    match options
    case Exponential(_, growth, scale) => scale > 0.0 && growth > 1.0
    case Linear(_, offset, width) => offset.Some? && width.Some? && width.value > 0.0
    case Explicit(bounds) => forall i, j :: 0 <= i < j < |bounds| ==> bounds[i] < bounds[j]
  }

  predicate InBucket(options: BucketOptions, i: nat, sample: real)
    requires WellFormedOptions(options) && i <= Edges(options)
  {
    && (i >= 1 ==> Edge(options, i - 1) <= sample)
    && (i < Edges(options) ==> sample < Edge(options, i))
  }

  function CountIn(samples: seq<real>, options: BucketOptions, i: nat): nat
    requires WellFormedOptions(options) && i <= Edges(options)
  {
    if samples == [] then 0
    else CountIn(samples[1..], options, i) + (if InBucket(options, i, samples[0]) then 1 else 0)
  }

  function SumOf(samples: seq<real>): real {
    if samples == [] then 0.0 else samples[0] + SumOf(samples[1..])
  }

  function SumCounts(bucketCounts: seq<nat>): nat {
    if bucketCounts == [] then 0 else bucketCounts[0] + SumCounts(bucketCounts[1..])
  }

  /** The API's promises on a distribution: at most one count per bucket, trailing empty
      buckets may be left out, and the counts add up. */
  predicate WellFormed(point: DistributionPoint) {
    && WellFormedOptions(point.options)
    && 1 <= |point.bucketCounts| <= Edges(point.options) + 1
    && point.count == SumCounts(point.bucketCounts)
  }

  /** The point is the histogram of these samples. */
  ghost predicate Describes(point: DistributionPoint, samples: seq<real>)
    requires WellFormed(point)
  {
    && |samples| == point.count
    && (forall i :: 0 <= i < |point.bucketCounts| ==> CountIn(samples, point.options, i) == point.bucketCounts[i])
    && forall s :: s in samples ==> exists i :: 0 <= i < |point.bucketCounts| && InBucket(point.options, i, s)
  }

  lemma {:induction false} PowersGrow(base: real, i: nat, j: nat)
    requires base > 1.0 && i < j
    ensures 0.0 < Power(base, i) < Power(base, j)
    decreases j
  {
    if i == 0 {
      if j > 1 {
        PowersGrow(base, 0, j - 1);
        ProductAscends(base, 1.0, Power(base, j - 1));
      }
      assert base * 1.0 == base;
    } else {
      PowersGrow(base, i - 1, j - 1);
      ProductAscends(base, Power(base, i - 1), Power(base, j - 1));
    }
  }

  lemma ProductAscends(base: real, a: real, b: real)
    requires base > 0.0 && a < b
    ensures base * a < base * b
    ensures a > 0.0 ==> base * a > 0.0
  {
    assert base * (b - a) > 0.0;
    assert base * b == base * a + base * (b - a);
  }

  lemma EdgesAscend(options: BucketOptions, i: nat, j: nat)
    requires WellFormedOptions(options) && i < j < Edges(options)
    ensures Edge(options, i) < Edge(options, j)
  {
    match options
    case Exponential(_, growth, scale) =>
      PowersGrow(growth, i, j);
      ProductAscends(scale, Power(growth, i), Power(growth, j));
    case Linear(_, offset, width) =>
      ProductAscends(width.value, i as real, j as real);
    case Explicit(_) =>
  }

  lemma {:induction false} FirstNonEmptyIsFirst(bucketCounts: seq<nat>, i: nat)
    requires i < |bucketCounts| && bucketCounts[i] > 0
    ensures FirstNonEmpty(bucketCounts) <= i
    ensures bucketCounts[FirstNonEmpty(bucketCounts)] > 0
  {
    if bucketCounts[0] == 0 && |bucketCounts| > 1 { FirstNonEmptyIsFirst(bucketCounts[1..], i - 1); }
  }

  lemma {:induction false} CountedWhenIn(samples: seq<real>, options: BucketOptions, i: nat, k: nat)
    requires WellFormedOptions(options) && i <= Edges(options)
    requires k < |samples| && InBucket(options, i, samples[k])
    ensures CountIn(samples, options, i) > 0
  {
    if k > 0 { CountedWhenIn(samples[1..], options, i, k - 1); }
  }

  /** The bucket a described sample lies in is not empty, and lies between the first
      non-empty and the last bucket. */
  lemma BucketOfSample(point: DistributionPoint, samples: seq<real>, k: nat) returns (i: nat)
    requires WellFormed(point) && Describes(point, samples) && k < |samples|
    ensures FirstNonEmpty(point.bucketCounts) <= i < |point.bucketCounts|
    ensures InBucket(point.options, i, samples[k]) && point.bucketCounts[i] > 0
  {
    assert samples[k] in samples;
    i :| 0 <= i < |point.bucketCounts| && InBucket(point.options, i, samples[k]);
    CountedWhenIn(samples, point.options, i, k);
    FirstNonEmptyIsFirst(point.bucketCounts, i);
  }

  /** The last bucket given is the overflow bucket, and it holds samples. */
  predicate Overflow(point: DistributionPoint) {
    && 1 <= |point.bucketCounts| == Edges(point.options) + 1
    && point.bucketCounts[|point.bucketCounts| - 1] > 0
  }

  lemma BoundsAreEdges(point: DistributionPoint)
    requires WellFormed(point) && BoundsAreSet(point)
    ensures var first, last, edges := FirstNonEmpty(point.bucketCounts), |point.bucketCounts| - 1, Edges(point.options);
            && 1 <= first <= last <= edges
            && Bounds(point).0 == Edge(point.options, first - 1)
            && Bounds(point).1 == Edge(point.options, if last < edges then last else edges - 1)
  {
  }

  /** For every sample set a well-formed histogram describes, the reported minimum is at
      most every sample and at most the maximum; and the maximum is above every sample
      outside the overflow bucket. */
  lemma BoundsHoldSamples(point: DistributionPoint, samples: seq<real>, k: nat)
    requires WellFormed(point) && BoundsAreSet(point) && Describes(point, samples) && k < |samples|
    ensures Bounds(point).0 <= Bounds(point).1
    ensures Bounds(point).0 <= samples[k]
    ensures !Overflow(point) ==> samples[k] < Bounds(point).1
  {
    BoundsAreEdges(point);
    var first, last, edges := FirstNonEmpty(point.bucketCounts), |point.bucketCounts| - 1, Edges(point.options);
    var top := if last < edges then last else edges - 1;
    if first - 1 < top { EdgesAscend(point.options, first - 1, top); }
    var i := BucketOfSample(point, samples, k);
    if first < i { EdgesAscend(point.options, first - 1, i - 1); }
    if !Overflow(point) {
      if i < top { EdgesAscend(point.options, i, top); }
    }
  }

  // ---- The overflow bucket is exactly where the maximum fails ----

  /** A sample of bucket `i`, the one of the overflow bucket above the last edge. */
  function SampleOf(options: BucketOptions, i: nat): real
    requires WellFormedOptions(options) && i <= Edges(options)
  {
    if i == 0 then Edge(options, 0) - 1.0
    else if i == Edges(options) then Edge(options, i - 1) + 1.0
    else Edge(options, i - 1)
  }

  lemma SampleLiesOnlyIn(options: BucketOptions, i: nat, j: nat)
    requires WellFormedOptions(options) && i <= Edges(options) && j <= Edges(options)
    ensures InBucket(options, j, SampleOf(options, i)) <==> i == j
  {
    if 1 <= i < Edges(options) { EdgesAscend(options, i - 1, i); }
    if i < j && 1 <= i && i < j - 1 { EdgesAscend(options, i - 1, j - 1); }
    if i < j && 0 < j - 1 { EdgesAscend(options, 0, j - 1); }
    if j < i && j < i - 1 { EdgesAscend(options, j, i - 1); }
  }

  function Copies(sample: real, n: nat): (samples: seq<real>)
    ensures |samples| == n
    ensures forall s :: s in samples ==> s == sample
  {
    if n == 0 then [] else [sample] + Copies(sample, n - 1)
  }

  /** Samples for the buckets from `from` on. */
  function SamplesFrom(point: DistributionPoint, from: nat): seq<real>
    requires WellFormed(point) && from <= |point.bucketCounts|
    decreases |point.bucketCounts| - from
  {
    if from == |point.bucketCounts| then []
    else Copies(SampleOf(point.options, from), point.bucketCounts[from]) + SamplesFrom(point, from + 1)
  }

  lemma {:induction false} CountAppend(a: seq<real>, b: seq<real>, options: BucketOptions, i: nat)
    requires WellFormedOptions(options) && i <= Edges(options)
    ensures CountIn(a + b, options, i) == CountIn(a, options, i) + CountIn(b, options, i)
  {
    if a == [] {
      assert a + b == b;
    } else {
      assert (a + b)[1..] == a[1..] + b;
      CountAppend(a[1..], b, options, i);
    }
  }

  lemma {:induction false} CountCopies(options: BucketOptions, i: nat, n: nat, j: nat)
    requires WellFormedOptions(options) && i <= Edges(options) && j <= Edges(options)
    ensures CountIn(Copies(SampleOf(options, i), n), options, j) == if i == j then n else 0
  {
    SampleLiesOnlyIn(options, i, j);
    if n > 0 {
      CountCopies(options, i, n - 1, j);
      assert Copies(SampleOf(options, i), n)[1..] == Copies(SampleOf(options, i), n - 1);
    }
  }

  lemma {:induction false} CountSamplesFrom(point: DistributionPoint, from: nat, j: nat)
    requires WellFormed(point) && from <= |point.bucketCounts| && j < |point.bucketCounts|
    ensures CountIn(SamplesFrom(point, from), point.options, j) == if from <= j then point.bucketCounts[j] else 0
    decreases |point.bucketCounts| - from
  {
    if from < |point.bucketCounts| {
      CountSamplesFrom(point, from + 1, j);
      CountCopies(point.options, from, point.bucketCounts[from], j);
      CountAppend(Copies(SampleOf(point.options, from), point.bucketCounts[from]), SamplesFrom(point, from + 1),
                  point.options, j);
    }
  }

  lemma {:induction false} SamplesFromLie(point: DistributionPoint, from: nat)
    requires WellFormed(point) && from <= |point.bucketCounts|
    ensures |SamplesFrom(point, from)| == SumCounts(point.bucketCounts[from..])
    ensures forall s :: s in SamplesFrom(point, from) ==>
              exists i :: from <= i < |point.bucketCounts| && InBucket(point.options, i, s)
    ensures forall i :: from <= i < |point.bucketCounts| && point.bucketCounts[i] > 0 ==>
              SampleOf(point.options, i) in SamplesFrom(point, from)
    decreases |point.bucketCounts| - from
  {
    if from < |point.bucketCounts| {
      SamplesFromLie(point, from + 1);
      SampleLiesOnlyIn(point.options, from, from);
      assert point.bucketCounts[from..][1..] == point.bucketCounts[from + 1..];
      var copies := Copies(SampleOf(point.options, from), point.bucketCounts[from]);
      if point.bucketCounts[from] > 0 { assert copies[0] in copies; }
    }
  }

  /** Every well-formed histogram is the histogram of some samples; with a non-empty
      overflow bucket one of them can lie above the reported maximum. */
  lemma WitnessSamples(point: DistributionPoint) returns (samples: seq<real>)
    requires WellFormed(point)
    ensures Describes(point, samples)
    ensures BoundsAreSet(point) && Overflow(point) ==> exists s :: s in samples && s > Bounds(point).1
  {
    samples := SamplesFrom(point, 0);
    SamplesFromLie(point, 0);
    assert point.bucketCounts[0..] == point.bucketCounts;
    forall j | 0 <= j < |point.bucketCounts|
      ensures CountIn(samples, point.options, j) == point.bucketCounts[j]
    {
      CountSamplesFrom(point, 0, j);
    }
    if BoundsAreSet(point) && Overflow(point) {
      BoundsAreEdges(point);
      assert SampleOf(point.options, Edges(point.options)) in samples;
    }
  }

  /** Where a bucket branch sets the bounds, the reported maximum is an upper bound of every
      sample set the histogram describes exactly when no sample fell into the overflow bucket. */
  lemma MaximumHoldsIff(point: DistributionPoint)
    requires WellFormed(point) && BoundsAreSet(point)
    ensures (forall samples :: Describes(point, samples) ==> forall s :: s in samples ==> s <= Bounds(point).1)
            <==> !Overflow(point)
  {
    if Overflow(point) {
      var samples := WitnessSamples(point);
    } else {
      forall samples, s | Describes(point, samples) && s in samples
        ensures s <= Bounds(point).1
      {
        var k :| 0 <= k < |samples| && samples[k] == s;
        BoundsHoldSamples(point, samples, k);
      }
    }
  }

  /** Only explicit buckets can reach the overflow bucket: the other branches leave the
      bounds alone unless all counts are of finite buckets. */
  lemma OverflowOnlyExplicit(point: DistributionPoint)
    requires WellFormed(point) && BoundsAreSet(point) && Overflow(point)
    ensures point.options.Explicit?
  {
  }

  lemma {:induction false} SumAtLeast(samples: seq<real>, low: real)
    requires forall k :: 0 <= k < |samples| ==> low <= samples[k]
    ensures IsAtLeast(SumOf(samples), low, |samples|)
  {
    if samples != [] {
      SumAtLeast(samples[1..], low);
      OneMoreTime(low, |samples| - 1);
    }
  }

  lemma {:induction false} SumAtMost(samples: seq<real>, high: real)
    requires forall k :: 0 <= k < |samples| ==> samples[k] <= high
    ensures IsAtMost(SumOf(samples), high, |samples|)
  {
    if samples != [] {
      SumAtMost(samples[1..], high);
      OneMoreTime(high, |samples| - 1);
    }
  }

  lemma OneMoreTime(x: real, count: int)
    ensures x * ((count + 1) as real) == x + x * (count as real)
  {
    assert (count + 1) as real == count as real + 1.0;
  }

  /** The sum lies between count times the minimum and, if `bounded`, count times the maximum. */
  predicate SumInBounds(gauge: Gauge, bounded: bool) {
    && gauge.min <= gauge.max
    && IsAtLeast(gauge.sum, gauge.min, gauge.count)
    && (bounded ==> IsAtMost(gauge.sum, gauge.max, gauge.count))
  }

  predicate IsAtLeast(sum: real, low: real, count: int) { low * (count as real) <= sum }

  predicate IsAtMost(sum: real, high: real, count: int) { sum <= high * (count as real) }

  lemma ScaledKeepsBounds(gauge: Gauge, percent: bool, bounded: bool)
    requires SumInBounds(gauge, bounded)
    ensures SumInBounds(Scaled(gauge, percent), bounded)
    ensures Scaled(gauge, percent).count == gauge.count
    ensures Scaled(gauge, percent).sum == if percent then 100.0 * gauge.sum else gauge.sum
  {
    var n := gauge.count as real;
    assert 100.0 * (gauge.min * n) == (100.0 * gauge.min) * n;
    assert 100.0 * (gauge.max * n) == (100.0 * gauge.max) * n;
  }

  lemma UnscaledIsConsistent(point: DistributionPoint, samples: seq<real>)
    requires WellFormed(point) && BoundsAreSet(point) && Describes(point, samples)
    ensures SumInBounds(Gauge(Bounds(point).0, Bounds(point).1, point.count, SumOf(samples)), !Overflow(point))
  {
    var (low, high) := Bounds(point);
    forall k | 0 <= k < |samples|
      ensures low <= samples[k] && (!Overflow(point) ==> samples[k] <= high)
    {
      BoundsHoldSamples(point, samples, k);
    }
    BoundsHoldSamples(point, samples, 0);
    SumBetween(samples, low, high, !Overflow(point));
  }

  lemma SumBetween(samples: seq<real>, low: real, high: real, bounded: bool)
    requires low <= high
    requires forall k :: 0 <= k < |samples| ==> low <= samples[k] && (bounded ==> samples[k] <= high)
    ensures SumInBounds(Gauge(low, high, |samples|, SumOf(samples)), bounded)
  {
    SumAtLeast(samples, low);
    if bounded { SumAtMost(samples, high); }
  }

  lemma SummaryOfBounds(point: DistributionPoint, percent: bool)
    requires BoundsAreSet(point) && !Raises(point)
    ensures Summarise(point, percent)
            == Some(Scaled(Gauge(Bounds(point).0, Bounds(point).1, point.count, ReportedSum(point)), percent))
  {
  }

  /** The reported line is consistent: with the true mean, the sum lies between count
      times the minimum and, without overflow, count times the maximum; also when scaled. */
  lemma SummaryIsConsistent(point: DistributionPoint, samples: seq<real>, percent: bool)
    requires WellFormed(point) && BoundsAreSet(point) && Describes(point, samples)
    requires ReportedSum(point) == SumOf(samples)
    ensures var gauge := Summarise(point, percent).value;
            && gauge.count == |samples|
            && gauge.sum == (if percent then 100.0 * SumOf(samples) else SumOf(samples))
            && SumInBounds(gauge, !Overflow(point))
  {
    UnscaledIsConsistent(point, samples);
    ScaledKeepsBounds(Gauge(Bounds(point).0, Bounds(point).1, point.count, SumOf(samples)), percent, !Overflow(point));
    SummaryOfBounds(point, percent);
  }

  // ---- Where no bucket branch sets the bounds ----

  predicate AllAre(samples: seq<real>, value: real) {
    forall k :: 0 <= k < |samples| ==> samples[k] == value
  }

  predicate AllAtMost(samples: seq<real>, value: real) {
    forall k :: 0 <= k < |samples| ==> samples[k] <= value
  }

  predicate AllAtLeast(samples: seq<real>, value: real) {
    forall k :: 0 <= k < |samples| ==> value <= samples[k]
  }

  predicate IsTimes(sum: real, value: real, count: int) { sum == value * (count as real) }

  lemma MeanTimesCount(point: DistributionPoint)
    ensures IsTimes(ReportedSum(point), Mean(point), point.count)
  {
  }

  lemma FirstIsMean(first: real, rest: real, value: real, count: int)
    requires (first <= value && IsAtMost(rest, value, count)) || (value <= first && IsAtLeast(rest, value, count))
    requires IsTimes(first + rest, value, count + 1)
    ensures first == value && IsTimes(rest, value, count)
  {
    OneMoreTime(value, count);
  }

  /** Samples on one side of their mean are all equal to it. */
  lemma {:induction false} OneSidedIsConstant(samples: seq<real>, value: real)
    requires AllAtMost(samples, value) || AllAtLeast(samples, value)
    requires IsTimes(SumOf(samples), value, |samples|)
    ensures AllAre(samples, value)
  {
    if samples != [] {
      if AllAtMost(samples, value) { SumAtMost(samples[1..], value); } else { SumAtLeast(samples[1..], value); }
      FirstIsMean(samples[0], SumOf(samples[1..]), value, |samples[1..]|);
      OneSidedIsConstant(samples[1..], value);
    }
  }

  /** The samples of the point, with the mean it gives. */
  ghost predicate DescribesWithMean(point: DistributionPoint, samples: seq<real>)
    requires WellFormed(point)
  {
    Describes(point, samples) && SumOf(samples) == ReportedSum(point)
  }

  predicate AtMostMaximum(gauge: Gauge, samples: seq<real>, percent: bool) {
    forall k :: 0 <= k < |samples| ==> Scale(samples[k], percent) <= gauge.max
  }

  predicate AtLeastMinimum(gauge: Gauge, samples: seq<real>, percent: bool) {
    forall k :: 0 <= k < |samples| ==> gauge.min <= Scale(samples[k], percent)
  }

  /** Scaling changes nothing in what bounds what. */
  lemma MeanBounds(point: DistributionPoint, samples: seq<real>, percent: bool)
    requires !BoundsAreSet(point) && point.count != 0
    ensures var gauge := Summarise(point, percent).value;
            && (AtMostMaximum(gauge, samples, percent) <==> AllAtMost(samples, Mean(point)))
            && (AtLeastMinimum(gauge, samples, percent) <==> AllAtLeast(samples, Mean(point)))
  {
    var gauge, mean := Summarise(point, percent).value, Mean(point);
    assert gauge.min == gauge.max == Scale(mean, percent);
    forall k | 0 <= k < |samples|
      ensures Scale(samples[k], percent) <= gauge.max <==> samples[k] <= mean
      ensures gauge.min <= Scale(samples[k], percent) <==> mean <= samples[k]
    {
      ScaleKeepsOrder(samples[k], mean, percent);
      ScaleKeepsOrder(mean, samples[k], percent);
    }
  }

  lemma ScaleKeepsOrder(x: real, y: real, percent: bool)
    ensures Scale(x, percent) <= Scale(y, percent) <==> x <= y
  {
  }

  /** The mean is reported as minimum and as maximum. Either bounds the samples exactly when
      all of them are equal. */
  lemma UnsetBoundsHoldIff(point: DistributionPoint, samples: seq<real>, percent: bool)
    requires WellFormed(point) && !BoundsAreSet(point) && point.count > 0 && DescribesWithMean(point, samples)
    ensures var gauge := Summarise(point, percent).value;
            && (AtMostMaximum(gauge, samples, percent) <==> AllAre(samples, Mean(point)))
            && (AtLeastMinimum(gauge, samples, percent) <==> AllAre(samples, Mean(point)))
  {
    MeanBounds(point, samples, percent);
    MeanTimesCount(point);
    if AllAtMost(samples, Mean(point)) || AllAtLeast(samples, Mean(point)) { OneSidedIsConstant(samples, Mean(point)); }
  }

  /** All samples are in one bucket, and its lower edge is the mean. */
  predicate MeanIsLowerEdge(point: DistributionPoint)
    requires WellFormed(point)
  {
    exists i :: 1 <= i < |point.bucketCounts| && HoldsAllFrom(point, i, Mean(point))
  }

  predicate HoldsAllFrom(point: DistributionPoint, i: nat, low: real)
    requires WellFormed(point) && 1 <= i < |point.bucketCounts|
  {
    point.bucketCounts[i] == point.count && Edge(point.options, i - 1) == low
  }

  lemma InOneBucketOnly(options: BucketOptions, i: nat, j: nat, sample: real)
    requires WellFormedOptions(options) && i <= Edges(options) && j <= Edges(options)
    requires InBucket(options, i, sample) && InBucket(options, j, sample)
    ensures i == j
  {
    if i < j - 1 { EdgesAscend(options, i, j - 1); }
    if j < i - 1 { EdgesAscend(options, j, i - 1); }
  }

  predicate AllIn(samples: seq<real>, options: BucketOptions, i: nat)
    requires WellFormedOptions(options) && i <= Edges(options)
  {
    forall k :: 0 <= k < |samples| ==> InBucket(options, i, samples[k])
  }

  lemma {:induction false} CountOfAllIn(samples: seq<real>, options: BucketOptions, i: nat, j: nat)
    requires WellFormedOptions(options) && i <= Edges(options) && j <= Edges(options) && AllIn(samples, options, i)
    ensures CountIn(samples, options, j) == if i == j then |samples| else 0
  {
    if samples != [] {
      assert InBucket(options, i, samples[0]);
      if InBucket(options, j, samples[0]) { InOneBucketOnly(options, i, j, samples[0]); }
      CountOfAllIn(samples[1..], options, i, j);
    }
  }

  lemma {:induction false} OthersAreEmpty(bucketCounts: seq<nat>, i: nat)
    requires i < |bucketCounts|
    ensures bucketCounts[i] <= SumCounts(bucketCounts)
    ensures bucketCounts[i] == SumCounts(bucketCounts) ==>
              forall j :: 0 <= j < |bucketCounts| && j != i ==> bucketCounts[j] == 0
  {
    if i == 0 {
      forall j | 1 <= j < |bucketCounts| ensures bucketCounts[j] <= SumCounts(bucketCounts[1..]) {
        OthersAreEmpty(bucketCounts[1..], j - 1);
      }
    } else {
      OthersAreEmpty(bucketCounts[1..], i - 1);
      assert forall j :: 1 <= j < |bucketCounts| ==> bucketCounts[j] == bucketCounts[1..][j - 1];
    }
  }

  /** Samples at or above the lower edge of their one bucket, with that edge for a mean, are
      all equal. */
  lemma LowerEdgeIsConstant(point: DistributionPoint, samples: seq<real>)
    requires WellFormed(point) && point.count > 0 && DescribesWithMean(point, samples) && MeanIsLowerEdge(point)
    ensures AllAre(samples, Mean(point))
  {
    var i :| 1 <= i < |point.bucketCounts| && HoldsAllFrom(point, i, Mean(point));
    OthersAreEmpty(point.bucketCounts, i);
    forall k | 0 <= k < |samples| ensures Mean(point) <= samples[k] {
      var j := BucketOfSample(point, samples, k);
    }
    MeanTimesCount(point);
    OneSidedIsConstant(samples, Mean(point));
  }

  /** A bucket that holds a value above its lower edge holds values on both sides of it. */
  lemma RoomAround(options: BucketOptions, i: nat, value: real) returns (gap: real)
    requires WellFormedOptions(options) && i <= Edges(options) && InBucket(options, i, value)
    requires i >= 1 ==> Edge(options, i - 1) < value
    ensures gap > 0.0 && InBucket(options, i, value - gap) && InBucket(options, i, value + gap)
  {
    var below := if i >= 1 then value - Edge(options, i - 1) else 1.0;
    var above := if i < Edges(options) then Edge(options, i) - value else 1.0;
    gap := (if below < above then below else above) / 2.0;
  }

  lemma DescribesIfIn(point: DistributionPoint, samples: seq<real>, i: nat)
    requires WellFormed(point) && i < |point.bucketCounts| && point.bucketCounts[i] == point.count == |samples|
    requires AllIn(samples, point.options, i)
    ensures Describes(point, samples)
  {
    OthersAreEmpty(point.bucketCounts, i);
    forall j | 0 <= j < |point.bucketCounts|
      ensures CountIn(samples, point.options, j) == point.bucketCounts[j]
    {
      CountOfAllIn(samples, point.options, i, j);
    }
  }

  /** Two equal samples moved apart by the same gap keep the sum. */
  lemma SpreadKeepsSum(samples: seq<real>, value: real, gap: real) returns (spread: seq<real>)
    requires |samples| >= 2 && samples[0] == samples[1] == value
    ensures spread == [value - gap, value + gap] + samples[2..] && SumOf(spread) == SumOf(samples)
  {
    spread := [value - gap, value + gap] + samples[2..];
    assert spread[1..] == [value + gap] + samples[2..] && spread[1..][1..] == samples[2..] == samples[1..][1..];
  }

  lemma BucketOfAll(point: DistributionPoint, samples: seq<real>) returns (i: nat)
    requires WellFormed(point) && point.count > 0 && Describes(point, samples) && AllAre(samples, Mean(point))
    ensures i < |point.bucketCounts| && AllIn(samples, point.options, i) && point.bucketCounts[i] == point.count
  {
    i := BucketOfSample(point, samples, 0);
    CountOfAllIn(samples, point.options, i, i);
  }

  /** Unless there is one sample, or the mean is the lower edge of the only bucket, there are
      samples with this histogram and mean that differ. */
  lemma DifferentSamples(point: DistributionPoint, samples: seq<real>) returns (different: seq<real>)
    requires WellFormed(point) && point.count > 1 && DescribesWithMean(point, samples) && !MeanIsLowerEdge(point)
    ensures DescribesWithMean(point, different) && !AllAre(different, Mean(point))
  {
    different := samples;
    if AllAre(samples, Mean(point)) {
      var i := BucketOfAll(point, samples);
      assert InBucket(point.options, i, samples[0]);
      assert i >= 1 ==> !HoldsAllFrom(point, i, Mean(point));
      var gap := RoomAround(point.options, i, Mean(point));
      different := SpreadKeepsSum(samples, Mean(point), gap);
      assert different[0] == Mean(point) - gap;
      DescribesIfIn(point, different, i);
    }
  }

  /** Where no bucket branch sets the bounds, the reported maximum bounds every sample set with
      this histogram and mean, and likewise the reported minimum, exactly when there is one
      sample or the mean is the lower edge of the only bucket that is not empty. */
  lemma UnsetBoundsHoldAllIff(point: DistributionPoint, percent: bool)
    requires WellFormed(point) && !BoundsAreSet(point) && point.count > 0
    requires exists samples :: DescribesWithMean(point, samples)
    ensures var gauge := Summarise(point, percent).value;
            var constant := point.count == 1 || MeanIsLowerEdge(point);
            && ((forall samples :: DescribesWithMean(point, samples) ==> AtMostMaximum(gauge, samples, percent))
                <==> constant)
            && ((forall samples :: DescribesWithMean(point, samples) ==> AtLeastMinimum(gauge, samples, percent))
                <==> constant)
  {
    forall samples | DescribesWithMean(point, samples) && (point.count == 1 || MeanIsLowerEdge(point))
      ensures AllAre(samples, Mean(point))
    {
      if point.count == 1 { SumOfOne(samples); } else { LowerEdgeIsConstant(point, samples); }
    }
    forall samples | DescribesWithMean(point, samples)
      ensures var gauge := Summarise(point, percent).value;
              && (AtMostMaximum(gauge, samples, percent) <==> AllAre(samples, Mean(point)))
              && (AtLeastMinimum(gauge, samples, percent) <==> AllAre(samples, Mean(point)))
    {
      UnsetBoundsHoldIff(point, samples, percent);
    }
    if point.count > 1 && !MeanIsLowerEdge(point) {
      var samples :| DescribesWithMean(point, samples);
      var different := DifferentSamples(point, samples);
    }
  }

  lemma SumOfOne(samples: seq<real>)
    requires |samples| == 1
    ensures SumOf(samples) == samples[0]
  {
    assert samples[1..] == [];
  }

  /** Three samples, all in the first bucket: the overflow bucket is empty, and yet the
      reported minimum and maximum are both the mean. */
  lemma UnsetBounds(point: DistributionPoint, samples: seq<real>)
    requires point == DistributionPoint(3, Some(3.0), Explicit([10.0]), [3]) && samples == [0.0, 0.0, 9.0]
    ensures WellFormed(point) && !BoundsAreSet(point) && !Overflow(point) && DescribesWithMean(point, samples)
    ensures Summarise(point, false) == Some(Gauge(3.0, 3.0, 3, 9.0))
  {
    assert SumCounts([3]) == 3 + SumCounts([]) by { assert [3][1..] == []; }
    DescribesIfIn(point, samples, 0);
    assert samples[1..] == [0.0, 9.0] && [0.0, 9.0][1..] == [9.0];
    SumOfOne([9.0]);
  }
}
