/** Local aggregation of series that became equal once a dimension was dropped:
    `_add_aggregated_line` and the paging loop of `fetch_metric` in
    src/lib/metric_ingest.py. Floats are exact reals. */
module LocalAggregation {
  import opened Wrappers
  import opened Sequences
  import opened LineProtocol

  // ---- Values ----

  /** A value of one of the three kinds that are aggregated; a distribution is the
      `min=..,max=..,count=..,sum=..` summary. */
  datatype Value = IntValue(i: int) | RealValue(r: real) | Summary(min: real, max: real, count: int, sum: real)

  datatype Kind = Int64 | Double | Distribution

  predicate OfKind(value: Value, kind: Kind) {
    match kind
    case Int64 => value.IntValue?
    case Double => value.RealValue?
    case Distribution => value.Summary?
  }

  function Least(a: real, b: real): real { if a <= b then a else b }
  function Greatest(a: real, b: real): real { if a >= b then a else b }

  /** The sum of two integers or reals; for distributions `_merge_distribution_values`. */
  function Merge(a: Value, b: Value, kind: Kind): (merged: Value)
    requires OfKind(a, kind) && OfKind(b, kind)
    ensures OfKind(merged, kind)
  {
    match kind
    case Int64 => IntValue(a.i + b.i)
    case Double => RealValue(a.r + b.r)
    case Distribution => Summary(Least(a.min, b.min), Greatest(a.max, b.max), a.count + b.count, a.sum + b.sum)
  }

  /** Numbers are added; of two summaries count and sum are, and the outer bounds taken. */
  predicate IsMerged(merged: Value, a: Value, b: Value, kind: Kind)
    requires OfKind(a, kind) && OfKind(b, kind)
  {
    match kind
    case Int64 => merged == IntValue(a.i + b.i)
    case Double => merged == RealValue(a.r + b.r)
    case Distribution =>
      && merged.Summary? && merged.count == a.count + b.count && merged.sum == a.sum + b.sum
      && merged.min <= a.min && merged.min <= b.min && (merged.min == a.min || merged.min == b.min)
      && a.max <= merged.max && b.max <= merged.max && (merged.max == a.max || merged.max == b.max)
  }

  lemma MergeIsCommutative(a: Value, b: Value, kind: Kind)
    requires OfKind(a, kind) && OfKind(b, kind)
    ensures Merge(a, b, kind) == Merge(b, a, kind)
  {
  }

  lemma MergeIsAssociative(a: Value, b: Value, c: Value, kind: Kind)
    requires OfKind(a, kind) && OfKind(b, kind) && OfKind(c, kind)
    ensures Merge(Merge(a, b, kind), c, kind) == Merge(a, Merge(b, c, kind), kind)
  {
  }

  // ---- The text of a distribution ----

  /** How numbers are written and read: `str`, `float` and `int`. */
  datatype Numerals = Numerals(showReal: real -> string, readReal: string -> real,
                               showInt: int -> string, readInt: string -> int)

  /** Reading undoes writing for this number, and its text holds no comma. */
  predicate RealPrints(numerals: Numerals, x: real) {
    numerals.readReal(numerals.showReal(x)) == x && ',' !in numerals.showReal(x)
  }

  predicate IntPrints(numerals: Numerals, n: int) {
    numerals.readInt(numerals.showInt(n)) == n && ',' !in numerals.showInt(n)
  }

  /** The numbers of a summary survive printing and parsing. */
  predicate Prints(numerals: Numerals, value: Value)
    requires value.Summary?
  {
    && RealPrints(numerals, value.min) && RealPrints(numerals, value.max) && RealPrints(numerals, value.sum)
    && IntPrints(numerals, value.count)
  }

  function GaugeText(min: string, max: string, count: string, sum: string): string {
    Join(["min=" + min, "max=" + max, "count=" + count, "sum=" + sum], ',')
  }

  lemma GaugeTextIs(min: string, max: string, count: string, sum: string)
    ensures GaugeText(min, max, count, sum) == "min=" + min + ",max=" + max + ",count=" + count + ",sum=" + sum
  {
    var a, b, c, d := "min=" + min, "max=" + max, "count=" + count, "sum=" + sum;
    JoinFour(a, b, c, d);
    assert [','] + b == ",max=" + max && [','] + c == ",count=" + count && [','] + d == ",sum=" + sum;
    assert ",max=" + max + (",count=" + count + (",sum=" + sum)) == ",max=" + max + ",count=" + count + ",sum=" + sum;
  }

  lemma JoinFour(a: string, b: string, c: string, d: string)
    ensures Join([a, b, c, d], ',') == a + ([','] + b + ([','] + c + ([','] + d)))
  {
    assert [a, b, c, d][1..] == [b, c, d] && [b, c, d][1..] == [c, d] && [c, d][1..] == [d];
    assert Join([c, d], ',') == c + ([','] + d);
    assert Join([b, c, d], ',') == b + ([','] + c + ([','] + d));
  }

  function TextOf(value: Value, numerals: Numerals): string
    requires value.Summary?
  {
    GaugeText(numerals.showReal(value.min), numerals.showReal(value.max),
              numerals.showInt(value.count), numerals.showReal(value.sum))
  }

  /** `_parse_distribution_value`: the items between the commas, each cut at its first `=`. */
  function ParseItems(items: seq<string>): map<string, string> {
    if items == [] then map[]
    else
      var (key, rest) := ReadUntil(items[|items| - 1], {'='});
      ParseItems(items[..|items| - 1])[key := if rest == "" then "" else rest[1..]]
  }

  function ParseDistributionValue(text: string): map<string, string> {
    ParseItems(Split(text, ','))
  }

  /** `_merge_distribution_values` on texts; nothing when a field is missing. */
  function MergeText(first: string, second: string, numerals: Numerals): Option<string> {
    var a, b := ParseDistributionValue(first), ParseDistributionValue(second);
    if {"min", "max", "count", "sum"} <= a.Keys && {"min", "max", "count", "sum"} <= b.Keys then
      Some(GaugeText(
             numerals.showReal(Least(numerals.readReal(a["min"]), numerals.readReal(b["min"]))),
             numerals.showReal(Greatest(numerals.readReal(a["max"]), numerals.readReal(b["max"]))),
             numerals.showInt(numerals.readInt(a["count"]) + numerals.readInt(b["count"])),
             numerals.showReal(numerals.readReal(a["sum"]) + numerals.readReal(b["sum"]))))
    else None
  }

  lemma ItemRead(key: string, value: string)
    requires '=' !in key
    ensures ReadUntil(key + "=" + value, {'='}) == (key, "=" + value)
  {
    ReadUntilStop(key, "=" + value, {'='});
    assert key + "=" + value == key + ("=" + value);
  }

  lemma ParsedItem(items: seq<string>, key: string, value: string)
    requires '=' !in key
    ensures ParseItems(items + [key + "=" + value]) == ParseItems(items)[key := value]
  {
    ItemRead(key, value);
    assert (items + [key + "=" + value])[..|items|] == items;
  }

  lemma ParsedGaugeText(min: string, max: string, count: string, sum: string)
    requires ',' !in min && ',' !in max && ',' !in count && ',' !in sum
    ensures ParseDistributionValue(GaugeText(min, max, count, sum))
            == map["min" := min, "max" := max, "count" := count, "sum" := sum]
  {
    var i1, i2, i3, i4 := "min" + "=" + min, "max" + "=" + max, "count" + "=" + count, "sum" + "=" + sum;
    assert i1 == "min=" + min && i2 == "max=" + max && i3 == "count=" + count && i4 == "sum=" + sum by {
      assert "min" + "=" == "min=" && "max" + "=" == "max=" && "count" + "=" == "count=" && "sum" + "=" == "sum=";
    }
    SplitUndoesJoin([i1, i2, i3, i4], ',');
    ParsedItem([], "min", min);
    ParsedItem([i1], "max", max);
    ParsedItem([i1, i2], "count", count);
    ParsedItem([i1, i2, i3], "sum", sum);
    assert [] + [i1] == [i1] && [i1] + [i2] == [i1, i2] && [i1, i2] + [i3] == [i1, i2, i3]
      && [i1, i2, i3] + [i4] == [i1, i2, i3, i4];
    assert ParseItems([]) == map[];
  }

  predicate HasFields(fields: map<string, string>, min: string, max: string, count: string, sum: string) {
    && {"min", "max", "count", "sum"} <= fields.Keys
    && fields["min"] == min && fields["max"] == max && fields["count"] == count && fields["sum"] == sum
  }

  lemma ParsedFields(value: Value, numerals: Numerals)
    requires value.Summary? && Prints(numerals, value)
    ensures HasFields(ParseDistributionValue(TextOf(value, numerals)), numerals.showReal(value.min),
                      numerals.showReal(value.max),
                      numerals.showInt(value.count), numerals.showReal(value.sum))
  {
    ParsedGaugeText(numerals.showReal(value.min), numerals.showReal(value.max), numerals.showInt(value.count),
                    numerals.showReal(value.sum));
  }

  /** Merging the texts of two summaries gives the text of the merged summary. */
  lemma MergedTextIsTextOfMerged(a: Value, b: Value, numerals: Numerals)
    requires a.Summary? && b.Summary? && Prints(numerals, a) && Prints(numerals, b)
    ensures MergeText(TextOf(a, numerals), TextOf(b, numerals), numerals)
            == Some(TextOf(Merge(a, b, Distribution), numerals))
  {
    ParsedFields(a, numerals);
    ParsedFields(b, numerals);
  }

  // ---- Keys: sorted dimensions ----

  /** Python's order on strings. */
  predicate TextLeq(a: string, b: string) {
    a == "" || (b != "" && (a[0] < b[0] || (a[0] == b[0] && TextLeq(a[1..], b[1..]))))
  }

  /** The order of the sort key `(dimension.name, dimension.value)`. */
  predicate DimensionLeq(a: DimensionValue, b: DimensionValue) {
    if a.name == b.name then TextLeq(a.value, b.value) else TextLeq(a.name, b.name)
  }

  lemma {:induction false} TextOrder(a: string, b: string, c: string)
    ensures TextLeq(a, b) || TextLeq(b, a)
    ensures TextLeq(a, b) && TextLeq(b, a) ==> a == b
    ensures TextLeq(a, b) && TextLeq(b, c) ==> TextLeq(a, c)
  {
    if a != "" && b != "" {
      TextOrder(a[1..], b[1..], if c == "" then "" else c[1..]);
      assert a == [a[0]] + a[1..] && b == [b[0]] + b[1..];
    }
  }

  lemma DimensionOrder(a: DimensionValue, b: DimensionValue, c: DimensionValue)
    ensures DimensionLeq(a, b) || DimensionLeq(b, a)
    ensures DimensionLeq(a, b) && DimensionLeq(b, a) ==> a == b
    ensures DimensionLeq(a, b) && DimensionLeq(b, c) ==> DimensionLeq(a, c)
  {
    TextOrder(a.name, b.name, c.name);
    TextOrder(b.name, c.name, a.name);
    TextOrder(a.value, b.value, c.value);
  }

  function Insert(dimension: DimensionValue, sorted: seq<DimensionValue>): seq<DimensionValue> {
    if sorted == [] then [dimension]
    else if DimensionLeq(dimension, sorted[0]) then [dimension] + sorted
    else [sorted[0]] + Insert(dimension, sorted[1..])
  }

  /** `sorted(dimension_values, key=...)`. */
  function Sort(dimensions: seq<DimensionValue>): seq<DimensionValue> {
    if dimensions == [] then [] else Insert(dimensions[0], Sort(dimensions[1..]))
  }

  predicate Sorted(dimensions: seq<DimensionValue>) {
    forall i, j :: 0 <= i < j < |dimensions| ==> DimensionLeq(dimensions[i], dimensions[j])
  }

  lemma {:induction false} InsertIsPermutation(dimension: DimensionValue, sorted: seq<DimensionValue>)
    ensures multiset(Insert(dimension, sorted)) == multiset{dimension} + multiset(sorted)
  {
    if sorted != [] && !DimensionLeq(dimension, sorted[0]) {
      InsertIsPermutation(dimension, sorted[1..]);
      assert sorted == [sorted[0]] + sorted[1..];
    }
  }

  lemma {:induction false} InsertKeepsSorted(dimension: DimensionValue, sorted: seq<DimensionValue>)
    requires Sorted(sorted)
    ensures Sorted(Insert(dimension, sorted))
  {
    if sorted != [] {
      DimensionOrder(dimension, sorted[0], sorted[0]);
      if DimensionLeq(dimension, sorted[0]) {
        forall j | 0 <= j < |sorted|
          ensures DimensionLeq(dimension, sorted[j])
        {
          DimensionOrder(dimension, sorted[0], sorted[j]);
        }
      } else {
        InsertKeepsSorted(dimension, sorted[1..]);
        InsertIsPermutation(dimension, sorted[1..]);
        var rest := Insert(dimension, sorted[1..]);
        forall j | 0 <= j < |rest|
          ensures DimensionLeq(sorted[0], rest[j])
        {
          assert rest[j] in multiset(rest);
        }
      }
    }
  }

  lemma {:induction false} SortSorts(dimensions: seq<DimensionValue>)
    ensures Sorted(Sort(dimensions))
    ensures multiset(Sort(dimensions)) == multiset(dimensions)
  {
    if dimensions != [] {
      SortSorts(dimensions[1..]);
      InsertKeepsSorted(dimensions[0], Sort(dimensions[1..]));
      InsertIsPermutation(dimensions[0], Sort(dimensions[1..]));
      assert dimensions == [dimensions[0]] + dimensions[1..];
    }
  }

  lemma LeastIsFirst(a: seq<DimensionValue>, b: seq<DimensionValue>)
    requires a != [] && b != [] && Sorted(a) && b[0] in multiset(a)
    ensures DimensionLeq(a[0], b[0])
  {
    DimensionOrder(a[0], a[0], a[0]);
    var i :| 0 <= i < |a| && a[i] == b[0];
  }

  lemma WithoutFirst(a: seq<DimensionValue>)
    requires a != []
    ensures a == [a[0]] + a[1..] && multiset(a[1..]) == multiset(a) - multiset{a[0]}
  {
  }

  lemma {:induction false} SortedIsUnique(a: seq<DimensionValue>, b: seq<DimensionValue>)
    requires Sorted(a) && Sorted(b) && multiset(a) == multiset(b)
    ensures a == b
  {
    assert |a| == |multiset(a)| == |multiset(b)| == |b|;
    if a != [] {
      assert a[0] in multiset(b) && b[0] in multiset(a);
      LeastIsFirst(a, b);
      LeastIsFirst(b, a);
      DimensionOrder(a[0], b[0], b[0]);
      WithoutFirst(a);
      WithoutFirst(b);
      SortedIsUnique(a[1..], b[1..]);
    }
  }

  datatype Line = Line(entityId: string, metricName: string, metricType: string, timestamp: int,
                       dimensionValues: seq<DimensionValue>, value: Value)

  datatype Key = Key(entityId: string, metricName: string, metricType: string, timestamp: int,
                     dimensions: seq<DimensionValue>)

  function KeyOf(line: Line): Key {
    Key(line.entityId, line.metricName, line.metricType, line.timestamp, Sort(line.dimensionValues))
  }

  /** Two lines of the same entity, metric, type and time with the same dimensions in any
      order. */
  predicate SameSeries(a: Line, b: Line) {
    && a.entityId == b.entityId && a.metricName == b.metricName && a.metricType == b.metricType
    && a.timestamp == b.timestamp && multiset(a.dimensionValues) == multiset(b.dimensionValues)
  }

  lemma SameKeyIffSameSeries(a: Line, b: Line)
    ensures KeyOf(a) == KeyOf(b) <==> SameSeries(a, b)
    ensures KeyOf(a) == KeyOf(b)
            <==> && a.entityId == b.entityId && a.metricName == b.metricName && a.metricType == b.metricType
                 && a.timestamp == b.timestamp && multiset(a.dimensionValues) == multiset(b.dimensionValues)
  {
    SortSorts(a.dimensionValues);
    SortSorts(b.dimensionValues);
    if multiset(a.dimensionValues) == multiset(b.dimensionValues) {
      SortedIsUnique(Sort(a.dimensionValues), Sort(b.dimensionValues));
    }
  }

  // ---- Totals of lines ----

  predicate LinesOfKind(lines: seq<Line>, kind: Kind) {
    forall i :: 0 <= i < |lines| ==> OfKind(lines[i].value, kind)
  }

  /** What some lines amount to: the sum of their values, or for distributions the least
      minimum, the greatest maximum and the summed count and sum. */
  function Total(lines: seq<Line>, kind: Kind): (total: Value)
    requires lines != [] && LinesOfKind(lines, kind)
    ensures OfKind(total, kind)
  {
    if |lines| == 1 then lines[0].value else Merge(lines[0].value, Total(lines[1..], kind), kind)
  }

  function IntSum(lines: seq<Line>): int
    requires LinesOfKind(lines, Int64)
  {
    if lines == [] then 0 else lines[0].value.i + IntSum(lines[1..])
  }

  function RealSum(lines: seq<Line>): real
    requires LinesOfKind(lines, Double)
  {
    if lines == [] then 0.0 else lines[0].value.r + RealSum(lines[1..])
  }

  function SampleCount(lines: seq<Line>): int
    requires LinesOfKind(lines, Distribution)
  {
    if lines == [] then 0 else lines[0].value.count + SampleCount(lines[1..])
  }

  function SampleSum(lines: seq<Line>): real
    requires LinesOfKind(lines, Distribution)
  {
    if lines == [] then 0.0 else lines[0].value.sum + SampleSum(lines[1..])
  }

  /** The value is the plain sum of the lines' values; for distributions count and sum are,
      the minimum is the least and the maximum the greatest of theirs. */
  ghost predicate AmountsTo(value: Value, lines: seq<Line>, kind: Kind)
    requires LinesOfKind(lines, kind)
  {
    match kind
    case Int64 => value == IntValue(IntSum(lines))
    case Double => value == RealValue(RealSum(lines))
    case Distribution =>
      && value.Summary? && value.count == SampleCount(lines) && value.sum == SampleSum(lines)
      && (forall k :: 0 <= k < |lines| ==> value.min <= lines[k].value.min)
      && (exists k :: 0 <= k < |lines| && value.min == lines[k].value.min)
      && (forall k :: 0 <= k < |lines| ==> lines[k].value.max <= value.max)
      && (exists k :: 0 <= k < |lines| && value.max == lines[k].value.max)
  }

  lemma OneAmounts(line: Line, kind: Kind)
    requires OfKind(line.value, kind)
    ensures AmountsTo(line.value, [line], kind)
  {
    assert [line][1..] == [];
    assert kind.Distribution? ==> line.value.min == [line][0].value.min && line.value.max == [line][0].value.max;
  }

  lemma FirstAmounts(lines: seq<Line>, rest: Value, kind: Kind)
    requires |lines| > 1 && LinesOfKind(lines, kind) && OfKind(rest, kind) && AmountsTo(rest, lines[1..], kind)
    ensures AmountsTo(Merge(lines[0].value, rest, kind), lines, kind)
  {
    if kind.Distribution? {
      var merged := Merge(lines[0].value, rest, kind);
      var least :| 0 <= least < |lines[1..]| && rest.min == lines[1..][least].value.min;
      var greatest :| 0 <= greatest < |lines[1..]| && rest.max == lines[1..][greatest].value.max;
      forall k | 0 <= k < |lines|
        ensures merged.min <= lines[k].value.min && lines[k].value.max <= merged.max
      {
        assert k > 0 ==> lines[k] == lines[1..][k - 1];
      }
      assert lines[1..][least] == lines[least + 1] && lines[1..][greatest] == lines[greatest + 1];
    }
  }

  /** The total is what its name says. */
  lemma {:induction false} TotalAmounts(lines: seq<Line>, kind: Kind)
    requires lines != [] && LinesOfKind(lines, kind)
    ensures AmountsTo(Total(lines, kind), lines, kind)
  {
    if |lines| == 1 {
      assert lines == [lines[0]];
      OneAmounts(lines[0], kind);
    } else {
      TotalAmounts(lines[1..], kind);
      FirstAmounts(lines, Total(lines[1..], kind), kind);
    }
  }

  lemma {:induction false} TotalAfter(lines: seq<Line>, line: Line, kind: Kind)
    requires lines != [] && LinesOfKind(lines, kind) && OfKind(line.value, kind)
    ensures Total(lines + [line], kind) == Merge(Total(lines, kind), line.value, kind)
  {
    assert (lines + [line])[1..] == lines[1..] + [line];
    if |lines| > 1 {
      TotalAfter(lines[1..], line, kind);
      MergeIsAssociative(lines[0].value, Total(lines[1..], kind), line.value, kind);
    }
  }

  /** Merging a value into one line of a list merges it into the total. */
  lemma {:induction false} TotalOfUpdate(lines: seq<Line>, at: nat, merged: Line, value: Value, kind: Kind)
    requires at < |lines| && LinesOfKind(lines, kind) && OfKind(value, kind)
    requires merged.value == Merge(lines[at].value, value, kind)
    ensures LinesOfKind(lines[at := merged], kind)
    ensures Total(lines[at := merged], kind) == Merge(Total(lines, kind), value, kind)
    decreases |lines|
  {
    if |lines| > 1 {
      var rest := Total(lines[1..], kind);
      if at == 0 {
        assert lines[at := merged][1..] == lines[1..];
        MergeIsAssociative(lines[0].value, value, rest, kind);
        MergeIsCommutative(value, rest, kind);
        MergeIsAssociative(lines[0].value, rest, value, kind);
      } else {
        TotalOfUpdate(lines[1..], at - 1, merged, value, kind);
        assert lines[at := merged][1..] == lines[1..][at - 1 := merged];
        MergeIsAssociative(lines[0].value, rest, value, kind);
      }
    }
  }

  lemma WithoutOne(lines: seq<Line>, at: nat)
    requires at < |lines|
    ensures multiset(Without(lines, at)) == multiset(lines) - multiset{lines[at]}
  {
    assert lines == lines[..at] + ([lines[at]] + lines[at + 1..]);
  }

  /** A line may be taken out from anywhere. */
  lemma {:induction false} TotalWithout(lines: seq<Line>, at: nat, kind: Kind)
    requires at < |lines| && |lines| > 1 && LinesOfKind(lines, kind)
    ensures LinesOfKind(Without(lines, at), kind)
    ensures Total(lines, kind) == Merge(lines[at].value, Total(Without(lines, at), kind), kind)
    decreases |lines|
  {
    if at == 0 {
      assert Without(lines, 0) == lines[1..];
    } else {
      var less := Without(lines, at);
      assert less[0] == lines[0] && less[1..] == Without(lines[1..], at - 1);
      if |lines| > 2 {
        TotalWithout(lines[1..], at - 1, kind);
        var rest := Total(less[1..], kind);
        MergeIsAssociative(lines[0].value, lines[at].value, rest, kind);
        MergeIsCommutative(lines[0].value, lines[at].value, kind);
        MergeIsAssociative(lines[at].value, lines[0].value, rest, kind);
      } else {
        MergeIsCommutative(lines[0].value, lines[1].value, kind);
      }
    }
  }

  lemma KindOfPermutation(a: seq<Line>, b: seq<Line>, kind: Kind)
    requires LinesOfKind(a, kind) && multiset(a) == multiset(b)
    ensures LinesOfKind(b, kind) && |a| == |b|
  {
    assert |multiset(a)| == |a| && |multiset(b)| == |b|;
    forall i | 0 <= i < |b|
      ensures OfKind(b[i].value, kind)
    {
      assert b[i] in multiset(a);
    }
  }

  /** The total does not depend on the order of the lines. */
  lemma {:induction false} TotalIgnoresOrder(a: seq<Line>, b: seq<Line>, kind: Kind)
    requires a != [] && LinesOfKind(a, kind) && multiset(a) == multiset(b)
    ensures |a| == |b| && LinesOfKind(b, kind)
    ensures Total(a, kind) == Total(b, kind)
    decreases |a|
  {
    KindOfPermutation(a, b, kind);
    assert a[0] in multiset(b);
    var at :| 0 <= at < |b| && b[at] == a[0];
    if |a| > 1 {
      TotalWithout(b, at, kind);
      WithoutOne(a, 0);
      WithoutOne(b, at);
      assert Without(a, 0) == a[1..];
      TotalIgnoresOrder(a[1..], Without(b, at), kind);
    }
  }

  // ---- Aggregation ----

  /** Python's dictionary: its entries, and its keys in insertion order. */
  datatype Dictionary = Dictionary(entries: map<Key, Line>, order: seq<Key>)

  predicate DictionaryOfKind(dictionary: Dictionary, kind: Kind) {
    && (forall key :: key in dictionary.entries ==> OfKind(dictionary.entries[key].value, kind))
    && forall i :: 0 <= i < |dictionary.order| ==> dictionary.order[i] in dictionary.entries
  }

  function AddLine(dictionary: Dictionary, line: Line, kind: Kind): (after: Dictionary)
    requires DictionaryOfKind(dictionary, kind) && OfKind(line.value, kind)
    ensures DictionaryOfKind(after, kind)
  {
    var key := KeyOf(line);
    if key !in dictionary.entries then
      Dictionary(dictionary.entries[key := line], dictionary.order + [key])
    else
      var merged := Merge(dictionary.entries[key].value, line.value, kind);
      Dictionary(dictionary.entries[key := line.(value := merged)], dictionary.order)
  }

  function Fold(lines: seq<Line>, kind: Kind): (dictionary: Dictionary)
    requires LinesOfKind(lines, kind)
    ensures DictionaryOfKind(dictionary, kind)
  {
    if lines == [] then Dictionary(map[], [])
    else AddLine(Fold(lines[..|lines| - 1], kind), lines[|lines| - 1], kind)
  }

  /** `list(aggregated_lines.values())`. */
  function Listed(dictionary: Dictionary): (lines: seq<Line>)
    requires forall i :: 0 <= i < |dictionary.order| ==> dictionary.order[i] in dictionary.entries
    ensures |lines| == |dictionary.order|
    ensures forall i :: 0 <= i < |lines| ==> lines[i] == dictionary.entries[dictionary.order[i]]
  {
    seq(|dictionary.order|, i requires 0 <= i < |dictionary.order| => dictionary.entries[dictionary.order[i]])
  }

  /** The dictionary `aggregated_lines` of `fetch_metric`. */
  class Aggregator {
    const kind: Kind
    var entries: map<Key, Line>
    var order: seq<Key>

    function Contents(): Dictionary
      reads this
    {
      Dictionary(entries, order)
    }

    constructor (kind: Kind)
      ensures Contents() == Fold([], kind) && this.kind == kind
    {
      this.kind := kind;
      entries := map[];
      order := [];
    }

    /** `_add_aggregated_line`. */
    method Add(line: Line)
      requires DictionaryOfKind(Contents(), kind) && OfKind(line.value, kind)
      modifies this
      ensures Contents() == AddLine(old(Contents()), line, kind)
      ensures KeyOf(line) in old(entries) ==> IsMerged(entries[KeyOf(line)].value, old(entries)[KeyOf(line)].value,
                                                       line.value, kind)
      ensures KeyOf(line) !in old(entries) ==> entries[KeyOf(line)] == line
    {
      var key := KeyOf(line);
      if key !in entries {
        entries := entries[key := line];
        order := order + [key];
        return;
      }
      var value := Merge(entries[key].value, line.value, kind);
      entries := entries[key := Line(line.entityId, line.metricName, line.metricType,
                                     line.timestamp, line.dimensionValues, value)];
    }
  }

  /** A response of the time series API: an error, a page without series, or for each series
      what its points are converted to, if anything. */
  datatype Page = ErrorPage | NoTimeSeries | TimeSeries(series: seq<seq<Option<Line>>>)

  function Present(points: seq<Option<Line>>): seq<Line> {
    if points == [] then []
    else
      var last := points[|points| - 1];
      Present(points[..|points| - 1]) + if last.Some? then [last.value] else []
  }

  function PresentAll(series: seq<seq<Option<Line>>>): seq<Line> {
    if series == [] then [] else PresentAll(series[..|series| - 1]) + Present(series[|series| - 1])
  }

  /** The lines of the pages up to the first that has no series. */
  function Fetched(pages: seq<Page>): seq<Line> {
    if pages == [] || !pages[0].TimeSeries? then [] else PresentAll(pages[0].series) + Fetched(pages[1..])
  }

  /** The first page that has no series is an error. */
  predicate EndsInError(pages: seq<Page>) {
    pages != [] && (pages[0].ErrorPage? || (pages[0].TimeSeries? && EndsInError(pages[1..])))
  }

  lemma {:induction false} EndsInErrorIff(pages: seq<Page>)
    ensures EndsInError(pages)
            <==> exists p :: 0 <= p < |pages| && pages[p].ErrorPage? && forall q :: 0 <= q < p ==> pages[q].TimeSeries?
  {
    if pages != [] && pages[0].TimeSeries? {
      EndsInErrorIff(pages[1..]);
      if p :| 0 <= p < |pages| && pages[p].ErrorPage? && forall q :: 0 <= q < p ==> pages[q].TimeSeries? {
        assert pages[1..][p - 1].ErrorPage?;
        assert forall q :: 0 <= q < p - 1 ==> pages[1..][q] == pages[q + 1];
      }
      if p :| 0 <= p < |pages[1..]| && pages[1..][p].ErrorPage?
              && forall q :: 0 <= q < p ==> pages[1..][q].TimeSeries? {
        assert pages[p + 1].ErrorPage?;
        assert forall q :: 0 < q < p + 1 ==> pages[q] == pages[1..][q - 1];
      }
    }
  }

  /** The points that are converted to this line. */
  function PointsOf(points: seq<Option<Line>>, line: Line): set<nat> {
    set i: nat | i < |points| && points[i] == Some(line)
  }

  lemma PointsOfMore(points: seq<Option<Line>>, line: Line)
    requires points != []
    ensures var last := |points| - 1;
            |PointsOf(points, line)| == |PointsOf(points[..last], line)| + if points[last] == Some(line) then 1 else 0
  {
    var last := |points| - 1;
    var before := PointsOf(points[..last], line);
    assert last !in before;
    if points[last] == Some(line) {
      assert PointsOf(points, line) == before + {last};
    } else {
      assert PointsOf(points, line) == before;
    }
  }

  lemma CountOneMore(lines: seq<Line>, last: Option<Line>, line: Line)
    ensures multiset(lines + if last.Some? then [last.value] else [])[line]
            == multiset(lines)[line] + if last == Some(line) then 1 else 0
  {
    ConcatEmpty(lines);
  }

  lemma {:induction false} PresentCounts(points: seq<Option<Line>>, line: Line)
    ensures multiset(Present(points))[line] == |PointsOf(points, line)|
  {
    if points != [] {
      var last := |points| - 1;
      PresentCounts(points[..last], line);
      PointsOfMore(points, line);
      CountOneMore(Present(points[..last]), points[last], line);
    }
  }

  /** How often a line is among the points of some series. */
  function TimesIn(series: seq<seq<Option<Line>>>, line: Line): nat {
    Sum(seq(|series|, s requires 0 <= s < |series| => |PointsOf(series[s], line)|))
  }

  lemma {:induction false} PresentAllCounts(series: seq<seq<Option<Line>>>, line: Line)
    ensures multiset(PresentAll(series))[line] == TimesIn(series, line)
  {
    if series != [] {
      var last := |series| - 1;
      PresentAllCounts(series[..last], line);
      PresentCounts(series[last], line);
      var counts := seq(|series|, s requires 0 <= s < |series| => |PointsOf(series[s], line)|);
      assert counts[..last] == seq(last, s requires 0 <= s < last => |PointsOf(series[..last][s], line)|);
    }
  }

  lemma {:induction false} FetchedAll(pages: seq<Page>, count: nat)
    requires count <= |pages| && forall p :: 0 <= p < count ==> pages[p].TimeSeries?
    requires count < |pages| ==> !pages[count].TimeSeries?
    ensures Fetched(pages) == Flatten(seq(count, p requires 0 <= p < count => PresentAll(pages[p].series)))
  {
    if count > 0 {
      FetchedAll(pages[1..], count - 1);
      var parts := seq(count, p requires 0 <= p < count => PresentAll(pages[p].series));
      assert parts[1..] == seq(count - 1, p requires 0 <= p < count - 1 => PresentAll(pages[1..][p].series));
    }
  }

  predicate PointsOfKind(points: seq<Option<Line>>, kind: Kind) {
    forall i :: 0 <= i < |points| ==> points[i].Some? ==> OfKind(points[i].value.value, kind)
  }

  predicate SeriesOfKind(series: seq<seq<Option<Line>>>, kind: Kind) {
    forall i :: 0 <= i < |series| ==> PointsOfKind(series[i], kind)
  }

  predicate PagesOfKind(pages: seq<Page>, kind: Kind) {
    forall p :: 0 <= p < |pages| ==> pages[p].TimeSeries? ==> SeriesOfKind(pages[p].series, kind)
  }

  /** The aggregator holds what folding `lines` gives. */
  ghost predicate Holds(aggregator: Aggregator, lines: seq<Line>)
    reads aggregator
  {
    LinesOfKind(lines, aggregator.kind) && aggregator.Contents() == Fold(lines, aggregator.kind)
  }

  /** The loop of `fetch_metric` over pages, series and points, with aggregation on. */
  method FetchAggregated(pages: seq<Page>, kind: Kind) returns (raised: bool, lines: seq<Line>)
    requires PagesOfKind(pages, kind)
    ensures raised == EndsInError(pages)
    ensures LinesOfKind(Fetched(pages), kind)
    ensures !raised ==> lines == Listed(Fold(Fetched(pages), kind))
  {
    var aggregator := new Aggregator(kind);
    ghost var added: seq<Line> := [];
    assert pages[0..] == pages;
    ConcatEmpty(Fetched(pages));
    for p := 0 to |pages|
      invariant aggregator.kind == kind && fresh(aggregator) && Holds(aggregator, added)
      invariant Fetched(pages) == added + Fetched(pages[p..]) && EndsInError(pages) == EndsInError(pages[p..])
    {
      assert pages[p..][0] == pages[p] && pages[p..][1..] == pages[p + 1..];
      if pages[p].ErrorPage? {
        ConcatEmpty(added);
        return true, [];
      }
      if pages[p].NoTimeSeries? {
        ConcatEmpty(added);
        return false, Listed(aggregator.Contents());
      }
      AddSeries(aggregator, pages[p].series, added);
      ConcatIsAssociative(added, PresentAll(pages[p].series), Fetched(pages[p + 1..]));
      added := added + PresentAll(pages[p].series);
    }
    ConcatEmpty(added);
    raised, lines := false, Listed(aggregator.Contents());
  }

  /** The series of one page. */
  method AddSeries(aggregator: Aggregator, series: seq<seq<Option<Line>>>, ghost before: seq<Line>)
    requires Holds(aggregator, before) && SeriesOfKind(series, aggregator.kind)
    modifies aggregator
    ensures Holds(aggregator, before + PresentAll(series))
  {
    ConcatEmpty(before);
    for s := 0 to |series|
      invariant Holds(aggregator, before + PresentAll(series[..s]))
    {
      assert series[..s + 1][..s] == series[..s];
      ConcatIsAssociative(before, PresentAll(series[..s]), Present(series[s]));
      AddPoints(aggregator, series[s], before + PresentAll(series[..s]));
    }
    assert series[..|series|] == series;
  }

  /** The points of one series. */
  method AddPoints(aggregator: Aggregator, points: seq<Option<Line>>, ghost before: seq<Line>)
    requires Holds(aggregator, before) && PointsOfKind(points, aggregator.kind)
    modifies aggregator
    ensures Holds(aggregator, before + Present(points))
  {
    ConcatEmpty(before);
    for i := 0 to |points|
      invariant Holds(aggregator, before + Present(points[..i]))
    {
      assert points[..i + 1][..i] == points[..i];
      ghost var added := before + Present(points[..i]);
      if points[i].Some? {
        aggregator.Add(points[i].value);
        AddedLast(added, points[i].value, aggregator.kind);
        ConcatIsAssociative(before, Present(points[..i]), [points[i].value]);
      } else {
        ConcatEmpty(Present(points[..i]));
      }
    }
    assert points[..|points|] == points;
  }

  lemma AddedLast(lines: seq<Line>, line: Line, kind: Kind)
    requires LinesOfKind(lines, kind) && OfKind(line.value, kind)
    ensures LinesOfKind(lines + [line], kind)
    ensures Fold(lines + [line], kind) == AddLine(Fold(lines, kind), line, kind)
  {
    assert (lines + [line])[..|lines + [line]| - 1] == lines;
  }

  // ---- What aggregation means ----

  /** The lines with the given key, in the order they came. */
  function Group(lines: seq<Line>, key: Key): (group: seq<Line>)
    ensures forall i :: 0 <= i < |group| ==> KeyOf(group[i]) == key && group[i] in lines
  {
    if lines == [] then []
    else Group(lines[..|lines| - 1], key) + (if KeyOf(lines[|lines| - 1]) == key then [lines[|lines| - 1]] else [])
  }

  lemma {:induction false} GroupHoldsAll(lines: seq<Line>, key: Key)
    ensures forall line :: multiset(Group(lines, key))[line] == if KeyOf(line) == key then multiset(lines)[line] else 0
  {
    if lines != [] {
      GroupHoldsAll(lines[..|lines| - 1], key);
      assert lines == lines[..|lines| - 1] + [lines[|lines| - 1]];
    }
  }

  lemma GroupOfKind(lines: seq<Line>, key: Key, kind: Kind)
    requires LinesOfKind(lines, kind)
    ensures LinesOfKind(Group(lines, key), kind)
  {
  }

  /** The line that stands for a group: the total of its values under the dimensions, in
      their order, of the line that came last. */
  function Representative(group: seq<Line>, kind: Kind): Line
    requires group != [] && LinesOfKind(group, kind)
  {
    group[|group| - 1].(value := Total(group, kind))
  }

  /** The entry of every key is the representative of its group. */
  lemma {:induction false} EntryRepresents(lines: seq<Line>, kind: Kind, key: Key)
    requires LinesOfKind(lines, kind)
    ensures LinesOfKind(Group(lines, key), kind)
    ensures key in Fold(lines, kind).entries <==> Group(lines, key) != []
    ensures key in Fold(lines, kind).entries ==>
              Fold(lines, kind).entries[key] == Representative(Group(lines, key), kind)
  {
    GroupOfKind(lines, key, kind);
    if lines != [] {
      var init, last := lines[..|lines| - 1], lines[|lines| - 1];
      EntryRepresents(init, kind, key);
      RepresentativeAfter(Group(init, key), last, kind);
      assert Fold(lines, kind) == AddLine(Fold(init, kind), last, kind);
      if KeyOf(last) != key {
        assert Group(lines, key) == Group(init, key);
      }
    }
  }

  /** The entry of a key carries the plain sum of the lines with that key, and there is one
      exactly when there are such lines. */
  lemma FoldGroups(lines: seq<Line>, kind: Kind, key: Key)
    requires LinesOfKind(lines, kind)
    ensures LinesOfKind(Group(lines, key), kind)
    ensures key in Fold(lines, kind).entries <==> exists i :: 0 <= i < |lines| && KeyOf(lines[i]) == key
    ensures key in Fold(lines, kind).entries ==>
              AmountsTo(Fold(lines, kind).entries[key].value, Group(lines, key), kind)
  {
    EntryRepresents(lines, kind, key);
    if Group(lines, key) != [] { TotalAmounts(Group(lines, key), kind); }
    if i :| 0 <= i < |lines| && KeyOf(lines[i]) == key {
      GroupHoldsAll(lines, key);
      assert lines[i] in multiset(Group(lines, key));
    }
  }

  lemma RepresentativeAfter(group: seq<Line>, last: Line, kind: Kind)
    requires LinesOfKind(group, kind) && OfKind(last.value, kind)
    ensures LinesOfKind(group + [last], kind)
    ensures Representative(group + [last], kind)
            == if group == [] then last
               else last.(value := Merge(Representative(group, kind).value, last.value, kind))
  {
    if group != [] {
      TotalAfter(group, last, kind);
    } else {
      assert group + [last] == [last];
    }
  }

  /** The keys of the dictionary are listed once each. */
  ghost predicate Listing(d: Dictionary) {
    && (forall key :: key in d.entries <==> key in d.order)
    && forall i, j :: 0 <= i < j < |d.order| ==> d.order[i] != d.order[j]
  }

  /** Merging a line replaces one listed line; a new key lists one more. */
  lemma ListedAfter(before: Dictionary, line: Line, kind: Kind) returns (at: nat)
    requires DictionaryOfKind(before, kind) && OfKind(line.value, kind) && Listing(before)
    ensures var key := KeyOf(line);
            var after := AddLine(before, line, kind);
            if key in before.entries
            then at < |before.order| && before.order[at] == key
                 && Listed(after) == Listed(before)[at := after.entries[key]]
            else Listed(after) == Listed(before) + [line]
  {
    at := 0;
    if KeyOf(line) in before.entries {
      at :| 0 <= at < |before.order| && before.order[at] == KeyOf(line);
    }
  }

  lemma AddTotal(before: Dictionary, line: Line, kind: Kind)
    requires DictionaryOfKind(before, kind) && OfKind(line.value, kind) && Listing(before)
    ensures var after := AddLine(before, line, kind);
            Total(Listed(after), kind)
            == if before.order == [] then line.value else Merge(Total(Listed(before), kind), line.value, kind)
  {
    var at := ListedAfter(before, line, kind);
    if KeyOf(line) in before.entries {
      TotalOfUpdate(Listed(before), at, AddLine(before, line, kind).entries[KeyOf(line)], line.value, kind);
    } else if before.order != [] {
      TotalAfter(Listed(before), line, kind);
    }
  }

  lemma {:induction false} FoldLists(lines: seq<Line>, kind: Kind)
    requires LinesOfKind(lines, kind)
    ensures Listing(Fold(lines, kind))
    ensures lines == [] <==> Fold(lines, kind).order == []
  {
    if lines != [] { FoldLists(lines[..|lines| - 1], kind); }
  }

  lemma {:induction false} FoldKeepsTotal(lines: seq<Line>, kind: Kind)
    requires LinesOfKind(lines, kind) && lines != []
    ensures Listed(Fold(lines, kind)) != []
    ensures Total(Listed(Fold(lines, kind)), kind) == Total(lines, kind)
  {
    var init, last := lines[..|lines| - 1], lines[|lines| - 1];
    assert lines == init + [last];
    FoldLists(init, kind);
    AddTotal(Fold(init, kind), last, kind);
    if init != [] {
      FoldKeepsTotal(init, kind);
      TotalAfter(init, last, kind);
    }
  }

  /** The output lines amount to what all lines added do. */
  lemma TotalIsConserved(lines: seq<Line>, kind: Kind)
    requires LinesOfKind(lines, kind) && lines != []
    ensures Listed(Fold(lines, kind)) != []
    ensures exists total :: AmountsTo(total, Listed(Fold(lines, kind)), kind) && AmountsTo(total, lines, kind)
  {
    FoldKeepsTotal(lines, kind);
    TotalAmounts(lines, kind);
    TotalAmounts(Listed(Fold(lines, kind)), kind);
    assert AmountsTo(Total(lines, kind), lines, kind);
  }

  lemma OutputRepresents(lines: seq<Line>, kind: Kind, i: nat)
    requires LinesOfKind(lines, kind)
    requires i < |Fold(lines, kind).order|
    ensures var line := Listed(Fold(lines, kind))[i];
            var group := Group(lines, KeyOf(line));
            && KeyOf(line) == Fold(lines, kind).order[i]
            && group != [] && LinesOfKind(group, kind) && line == Representative(group, kind)
  {
    var key := Fold(lines, kind).order[i];
    EntryRepresents(lines, kind, key);
    var group := Group(lines, key);
    assert KeyOf(Representative(group, kind)) == KeyOf(group[|group| - 1]) == key;
  }

  /** Every output line carries the plain sum of its whole group, under the dimensions of the
      line of the group that came last. */
  lemma OutputLine(lines: seq<Line>, kind: Kind, i: nat)
    requires LinesOfKind(lines, kind)
    requires i < |Fold(lines, kind).order|
    ensures var line := Listed(Fold(lines, kind))[i];
            var group := Group(lines, KeyOf(line));
            && group != [] && LinesOfKind(group, kind) && AmountsTo(line.value, group, kind)
            && line == group[|group| - 1].(value := line.value)
  {
    OutputRepresents(lines, kind, i);
    TotalAmounts(Group(lines, Fold(lines, kind).order[i]), kind);
  }

  /** No two output lines are of the same series. */
  lemma OutputIsDistinct(lines: seq<Line>, kind: Kind, i: nat, j: nat)
    requires LinesOfKind(lines, kind)
    requires i < j < |Fold(lines, kind).order|
    ensures !SameSeries(Listed(Fold(lines, kind))[i], Listed(Fold(lines, kind))[j])
  {
    FoldLists(lines, kind);
    OutputRepresents(lines, kind, i);
    OutputRepresents(lines, kind, j);
    SameKeyIffSameSeries(Listed(Fold(lines, kind))[i], Listed(Fold(lines, kind))[j]);
  }

  /** Every line added is of the series of an output line. */
  lemma OutputIsComplete(lines: seq<Line>, kind: Kind, line: Line) returns (i: nat)
    requires LinesOfKind(lines, kind) && line in lines
    ensures i < |Fold(lines, kind).order| && SameSeries(Listed(Fold(lines, kind))[i], line)
  {
    FoldLists(lines, kind);
    GroupHoldsAll(lines, KeyOf(line));
    assert line in multiset(Group(lines, KeyOf(line)));
    EntryRepresents(lines, kind, KeyOf(line));
    i :| 0 <= i < |Fold(lines, kind).order| && Fold(lines, kind).order[i] == KeyOf(line);
    OutputRepresents(lines, kind, i);
    SameKeyIffSameSeries(Listed(Fold(lines, kind))[i], line);
  }

  /** The series and their values do not depend on the order of series, points or pages. */
  lemma AggregationIgnoresOrder(a: seq<Line>, b: seq<Line>, kind: Kind)
    requires LinesOfKind(a, kind) && multiset(a) == multiset(b)
    ensures LinesOfKind(b, kind)
    ensures Fold(a, kind).entries.Keys == Fold(b, kind).entries.Keys
    ensures forall key :: key in Fold(a, kind).entries ==>
              Fold(a, kind).entries[key].value == Fold(b, kind).entries[key].value
  {
    KindOfPermutation(a, b, kind);
    forall key
      ensures key in Fold(a, kind).entries <==> key in Fold(b, kind).entries
      ensures key in Fold(a, kind).entries ==> Fold(a, kind).entries[key].value == Fold(b, kind).entries[key].value
    {
      EntryRepresents(a, kind, key);
      EntryRepresents(b, kind, key);
      GroupHoldsAll(a, key);
      GroupHoldsAll(b, key);
      assert multiset(Group(a, key)) == multiset(Group(b, key));
      if Group(a, key) != [] {
        TotalIgnoresOrder(Group(a, key), Group(b, key), kind);
      } else {
        assert |multiset(Group(b, key))| == |Group(b, key)|;
      }
    }
  }

  /** The entry of a key is one of its lines but for the value. */
  lemma EntryIsALine(lines: seq<Line>, kind: Kind, key: Key) returns (i: nat)
    requires LinesOfKind(lines, kind) && key in Fold(lines, kind).entries
    ensures i < |lines| && KeyOf(lines[i]) == key
    ensures Fold(lines, kind).entries[key] == lines[i].(value := Fold(lines, kind).entries[key].value)
  {
    EntryRepresents(lines, kind, key);
    var last := Group(lines, key)[|Group(lines, key)| - 1];
    i :| 0 <= i < |lines| && lines[i] == last;
  }

  /** Lines of one series list their dimensions in one order. */
  predicate DimensionsAgree(lines: seq<Line>) {
    forall i, j :: 0 <= i < |lines| && 0 <= j < |lines| && SameSeries(lines[i], lines[j]) ==>
      lines[i].dimensionValues == lines[j].dimensionValues
  }

  lemma SameDimensions(a: seq<Line>, b: seq<Line>, i: nat, j: nat)
    requires multiset(a) == multiset(b) && DimensionsAgree(a)
    requires i < |a| && j < |b| && KeyOf(a[i]) == KeyOf(b[j])
    ensures a[i] == b[j].(value := a[i].value)
  {
    assert b[j] in multiset(a);
    var k :| 0 <= k < |a| && a[k] == b[j];
    SameKeyIffSameSeries(a[i], a[k]);
  }

  lemma EntryIgnoresOrder(a: seq<Line>, b: seq<Line>, kind: Kind, key: Key)
    requires LinesOfKind(a, kind) && LinesOfKind(b, kind) && multiset(a) == multiset(b) && DimensionsAgree(a)
    requires key in Fold(a, kind).entries && key in Fold(b, kind).entries
    requires Fold(a, kind).entries[key].value == Fold(b, kind).entries[key].value
    ensures Fold(a, kind).entries[key] == Fold(b, kind).entries[key]
  {
    var i := EntryIsALine(a, kind, key);
    var j := EntryIsALine(b, kind, key);
    SameDimensions(a, b, i, j);
  }

  /** The line at `i` is put last. */
  function PutLast(lines: seq<Line>, i: nat): seq<Line>
    requires i < |lines|
  {
    Without(lines, i) + [lines[i]]
  }

  lemma PutLastDecides(lines: seq<Line>, i: nat, kind: Kind)
    requires i < |lines| && LinesOfKind(lines, kind)
    ensures multiset(PutLast(lines, i)) == multiset(lines) && LinesOfKind(PutLast(lines, i), kind)
    ensures var key, entries := KeyOf(lines[i]), Fold(PutLast(lines, i), kind).entries;
            key in entries && entries[key].dimensionValues == lines[i].dimensionValues
  {
    WithoutOne(lines, i);
    KindOfPermutation(lines, PutLast(lines, i), kind);
    EntryRepresents(PutLast(lines, i), kind, KeyOf(lines[i]));
  }

  lemma SameOutput(a: seq<Line>, b: seq<Line>, kind: Kind)
    requires LinesOfKind(a, kind) && LinesOfKind(b, kind) && multiset(a) == multiset(b) && DimensionsAgree(a)
    ensures Fold(a, kind).entries == Fold(b, kind).entries
  {
    AggregationIgnoresOrder(a, b, kind);
    forall key | key in Fold(a, kind).entries ensures Fold(a, kind).entries[key] == Fold(b, kind).entries[key] {
      EntryIgnoresOrder(a, b, kind, key);
    }
  }

  lemma DisagreementShows(a: seq<Line>, i: nat, j: nat, kind: Kind)
    requires LinesOfKind(a, kind) && i < |a| && j < |a|
    requires SameSeries(a[i], a[j]) && a[i].dimensionValues != a[j].dimensionValues
    ensures LinesOfKind(PutLast(a, i), kind) && LinesOfKind(PutLast(a, j), kind)
    ensures multiset(PutLast(a, i)) == multiset(PutLast(a, j)) == multiset(a)
    ensures Fold(PutLast(a, i), kind).entries != Fold(PutLast(a, j), kind).entries
  {
    SameKeyIffSameSeries(a[i], a[j]);
    PutLastDecides(a, i, kind);
    PutLastDecides(a, j, kind);
  }

  lemma CountOfDistinct<T>(list: seq<T>, element: T)
    requires forall i, j :: 0 <= i < j < |list| ==> list[i] != list[j]
    ensures multiset(list)[element] == if element in list then 1 else 0
  {
    if element in list {
      var i :| 0 <= i < |list| && list[i] == element;
      SplitAround(list, i);
      assert element !in list[..i] && element !in list[i + 1..];
    }
  }

  /** The output holds each entry once. */
  lemma OutputHolds(lines: seq<Line>, kind: Kind, line: Line)
    requires LinesOfKind(lines, kind)
    ensures var d := Fold(lines, kind);
            multiset(Listed(d))[line] == if KeyOf(line) in d.entries && d.entries[KeyOf(line)] == line then 1 else 0
  {
    var d := Fold(lines, kind);
    var listed := Listed(d);
    FoldLists(lines, kind);
    forall i | 0 <= i < |listed| ensures KeyOf(listed[i]) == d.order[i] {
      OutputRepresents(lines, kind, i);
    }
    CountOfDistinct(listed, line);
    if KeyOf(line) in d.entries && d.entries[KeyOf(line)] == line {
      var i :| 0 <= i < |d.order| && d.order[i] == KeyOf(line);
      assert listed[i] == line;
    }
  }

  /** The same lines are put out, in whatever order. */
  ghost predicate SameLines(a: seq<Line>, b: seq<Line>, kind: Kind)
    requires LinesOfKind(a, kind) && LinesOfKind(b, kind)
  {
    multiset(Listed(Fold(a, kind))) == multiset(Listed(Fold(b, kind)))
  }

  lemma EntryIsListed(lines: seq<Line>, kind: Kind, key: Key)
    requires LinesOfKind(lines, kind) && key in Fold(lines, kind).entries
    ensures KeyOf(Fold(lines, kind).entries[key]) == key
    ensures multiset(Listed(Fold(lines, kind)))[Fold(lines, kind).entries[key]] == 1
  {
    var i := EntryIsALine(lines, kind, key);
    OutputHolds(lines, kind, Fold(lines, kind).entries[key]);
  }

  lemma ListedEntry(a: seq<Line>, b: seq<Line>, kind: Kind, key: Key)
    requires LinesOfKind(a, kind) && LinesOfKind(b, kind) && SameLines(a, b, kind) && key in Fold(a, kind).entries
    ensures key in Fold(b, kind).entries && Fold(b, kind).entries[key] == Fold(a, kind).entries[key]
  {
    EntryIsListed(a, kind, key);
    OutputHolds(b, kind, Fold(a, kind).entries[key]);
  }

  lemma SameLinesIffSameEntries(a: seq<Line>, b: seq<Line>, kind: Kind)
    requires LinesOfKind(a, kind) && LinesOfKind(b, kind)
    ensures SameLines(a, b, kind) <==> Fold(a, kind).entries == Fold(b, kind).entries
  {
    if Fold(a, kind).entries == Fold(b, kind).entries {
      forall line: Line
        ensures multiset(Listed(Fold(a, kind)))[line] == multiset(Listed(Fold(b, kind)))[line]
      {
        OutputHolds(a, kind, line);
        OutputHolds(b, kind, line);
      }
    }
    if SameLines(a, b, kind) {
      forall key | key in Fold(a, kind).entries || key in Fold(b, kind).entries
        ensures key in Fold(a, kind).entries && key in Fold(b, kind).entries
        ensures Fold(a, kind).entries[key] == Fold(b, kind).entries[key]
      {
        if key in Fold(a, kind).entries { ListedEntry(a, b, kind, key); } else { ListedEntry(b, a, kind, key); }
      }
      assert Fold(a, kind).entries == Fold(b, kind).entries;
    }
  }

  /** Every order of the same lines gives the same output lines, dimension order included,
      exactly when lines of one series list their dimensions alike. */
  lemma OutputIgnoresOrderIff(a: seq<Line>, kind: Kind)
    requires LinesOfKind(a, kind)
    ensures (forall b :: multiset(a) == multiset(b) && LinesOfKind(b, kind) ==> SameLines(a, b, kind))
            <==> DimensionsAgree(a)
  {
    if DimensionsAgree(a) {
      forall b | multiset(a) == multiset(b) && LinesOfKind(b, kind)
        ensures SameLines(a, b, kind)
      {
        SameOutput(a, b, kind);
        SameLinesIffSameEntries(a, b, kind);
      }
    } else {
      var i, j :|
        0 <= i < |a| && 0 <= j < |a| && SameSeries(a[i], a[j]) && a[i].dimensionValues != a[j].dimensionValues;
      DisagreementShows(a, i, j, kind);
      SameLinesIffSameEntries(a, PutLast(a, i), kind);
      SameLinesIffSameEntries(a, PutLast(a, j), kind);
    }
  }

  // ---- The order of the output ----

  /** Where a key appears first, or the length of the list. */
  function FirstAt(lines: seq<Line>, key: Key): (i: nat)
    ensures i <= |lines| && (i < |lines| ==> KeyOf(lines[i]) == key)
    ensures forall k :: 0 <= k < i ==> KeyOf(lines[k]) != key
  {
    if lines == [] || KeyOf(lines[0]) == key then 0 else 1 + FirstAt(lines[1..], key)
  }

  lemma FirstAtMore(lines: seq<Line>, key: Key)
    requires lines != []
    ensures var init := lines[..|lines| - 1];
            FirstAt(init, key) < |init| ==> FirstAt(lines, key) == FirstAt(init, key)
    ensures FirstAt(lines, key) < |lines| - 1 ==> FirstAt(lines[..|lines| - 1], key) == FirstAt(lines, key)
  {
    var init := lines[..|lines| - 1];
    assert forall k :: 0 <= k < |init| ==> init[k] == lines[k];
  }

  lemma UnlistedIsNew(lines: seq<Line>, kind: Kind, key: Key)
    requires LinesOfKind(lines, kind) && key !in Fold(lines, kind).entries
    ensures FirstAt(lines, key) == |lines|
  {
    forall i | 0 <= i < |lines| ensures KeyOf(lines[i]) != key {
      var at := OutputIsComplete(lines, kind, lines[i]);
      OutputRepresents(lines, kind, at);
      SameKeyIffSameSeries(Listed(Fold(lines, kind))[at], lines[i]);
    }
  }

  /** The output lists the series in the order in which they appeared first. */
  lemma {:induction false} OutputInOrderOfAppearance(lines: seq<Line>, kind: Kind, i: nat, j: nat)
    requires LinesOfKind(lines, kind) && i < |Fold(lines, kind).order|
    ensures FirstAt(lines, Fold(lines, kind).order[i]) < |lines|
    ensures i < j < |Fold(lines, kind).order| ==>
              FirstAt(lines, Fold(lines, kind).order[i]) < FirstAt(lines, Fold(lines, kind).order[j])
  {
    var init := lines[..|lines| - 1];
    var before, order := Fold(init, kind), Fold(lines, kind).order;
    FoldLists(init, kind);
    FirstAtMore(lines, order[i]);
    if i < |before.order| {
      OutputInOrderOfAppearance(init, kind, i, j);
      if i < j < |before.order| {
        OutputInOrderOfAppearance(init, kind, j, j);
        FirstAtMore(lines, order[j]);
      } else if i < j < |order| {
        UnlistedIsNew(init, kind, order[j]);
        FirstAtMore(lines, order[j]);
      }
    }
  }

  /** All lines are of one series. */
  predicate OneSeries(lines: seq<Line>) {
    forall i, j :: 0 <= i < |lines| && 0 <= j < |lines| ==> SameSeries(lines[i], lines[j])
  }

  function PutFirst(lines: seq<Line>, i: nat): seq<Line>
    requires i < |lines|
  {
    [lines[i]] + Without(lines, i)
  }

  lemma FirstListed(lines: seq<Line>, kind: Kind)
    requires LinesOfKind(lines, kind) && lines != []
    ensures |Fold(lines, kind).order| > 0 && KeyOf(Listed(Fold(lines, kind))[0]) == KeyOf(lines[0])
  {
    var order := Fold(lines, kind).order;
    FoldLists(lines, kind);
    OutputRepresents(lines, kind, 0);
    var i := OutputIsComplete(lines, kind, lines[0]);
    OutputRepresents(lines, kind, i);
    SameKeyIffSameSeries(Listed(Fold(lines, kind))[i], lines[0]);
    assert FirstAt(lines, order[i]) == 0;
    if i > 0 { OutputInOrderOfAppearance(lines, kind, 0, i); }
  }

  lemma OneLineListed(lines: seq<Line>, kind: Kind)
    requires LinesOfKind(lines, kind) && OneSeries(lines)
    ensures |Listed(Fold(lines, kind))| <= 1
  {
    var order := Fold(lines, kind).order;
    if |order| > 1 {
      OutputInOrderOfAppearance(lines, kind, 0, 1);
      OutputInOrderOfAppearance(lines, kind, 1, 1);
      SameKeyIffSameSeries(lines[FirstAt(lines, order[0])], lines[FirstAt(lines, order[1])]);
    }
  }

  lemma OneSeriesOfPermutation(a: seq<Line>, b: seq<Line>)
    requires multiset(a) == multiset(b) && OneSeries(a)
    ensures OneSeries(b)
  {
    forall i, j | 0 <= i < |b| && 0 <= j < |b| ensures SameSeries(b[i], b[j]) {
      assert b[i] in multiset(a) && b[j] in multiset(a);
    }
  }

  lemma OtherSeriesFirst(a: seq<Line>, kind: Kind, i: nat)
    requires LinesOfKind(a, kind) && i < |a| && !SameSeries(a[i], a[0])
    ensures multiset(PutFirst(a, i)) == multiset(a) && LinesOfKind(PutFirst(a, i), kind)
    ensures Listed(Fold(PutFirst(a, i), kind)) != Listed(Fold(a, kind))
  {
    WithoutOne(a, i);
    KindOfPermutation(a, PutFirst(a, i), kind);
    SameKeyIffSameSeries(a[i], a[0]);
    FirstListed(a, kind);
    FirstListed(PutFirst(a, i), kind);
  }

  /** The list itself, order included, is the same for every order of the lines exactly when
      they are all of one series and list their dimensions alike. */
  lemma ListIgnoresOrderIff(a: seq<Line>, kind: Kind)
    requires LinesOfKind(a, kind)
    ensures (forall b :: multiset(a) == multiset(b) && LinesOfKind(b, kind) ==>
               Listed(Fold(a, kind)) == Listed(Fold(b, kind)))
            <==> DimensionsAgree(a) && OneSeries(a)
  {
    OutputIgnoresOrderIff(a, kind);
    if DimensionsAgree(a) && OneSeries(a) {
      forall b | multiset(a) == multiset(b) && LinesOfKind(b, kind)
        ensures Listed(Fold(a, kind)) == Listed(Fold(b, kind))
      {
        OneSeriesOfPermutation(a, b);
        OneLineListed(a, kind);
        OneLineListed(b, kind);
        SameOfOne(Listed(Fold(a, kind)), Listed(Fold(b, kind)));
      }
    } else if !DimensionsAgree(a) {
      var b :| multiset(a) == multiset(b) && LinesOfKind(b, kind) && !SameLines(a, b, kind);
      assert Listed(Fold(a, kind)) != Listed(Fold(b, kind));
    } else {
      var i, j :| 0 <= i < |a| && 0 <= j < |a| && !SameSeries(a[i], a[j]);
      OtherSeriesFirst(a, kind, if SameSeries(a[i], a[0]) then j else i);
    }
  }

  lemma SameOfOne(a: seq<Line>, b: seq<Line>)
    requires |a| <= 1 && |b| <= 1 && multiset(a) == multiset(b)
    ensures a == b
  {
    assert |multiset(a)| == |a| && |multiset(b)| == |b|;
    if a != [] { assert a[0] in multiset(b); }
  }
}
