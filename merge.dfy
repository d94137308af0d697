/** The field aggregator of services/aggregator.js: `aggregateWeatherData` and `findMostCommon`.
    Six numeric fields are averaged over all sources (a missing reading adds 0 and still counts
    in the denominator) and rounded to two decimals; description and condition take the most
    common lower-cased value, ties going to the value seen first; the icon is the first
    source's. */
module Merge {
  import opened Wrappers
  import opened Sequences
  import opened Strings
  import opened Rounding
  import opened Weather

  /** The six fields that are averaged. */
  datatype NumField = Temp | FeelsLike | Humidity | Pressure | WindSpeed | WindDirection

  /** The two fields that are voted on. */
  datatype TextField = Description | Condition

  function NumOf(c: Current, f: NumField): Option<real> {
    match f
    case Temp => c.temp
    case FeelsLike => c.feelsLike
    case Humidity => c.humidity
    case Pressure => c.pressure
    case WindSpeed => c.windSpeed
    case WindDirection => c.windDirection
  }

  function TextOf(c: Current, f: TextField): Option<string> {
    match f
    case Description => c.description
    case Condition => c.condition
  }

  /** Σ (`current.f || 0`) over the sources, in source order. */
  function Sum(rs: seq<Reading>, f: NumField): real
    decreases |rs|
  {
    if |rs| == 0 then 0.0 else Sum(rs[..|rs| - 1], f) + OrZero(NumOf(rs[|rs| - 1].current, f))
  }

  /** The aggregated value of a numeric field: the sum divided by the number of sources, rounded. */
  function Mean(rs: seq<Reading>, f: NumField): real
    requires |rs| > 0
  {
    Round2(Sum(rs, f) / |rs| as real)
  }

  /** `current.f?.toLowerCase()` when it is truthy, i.e. present and non-empty. */
  function Label(c: Current, f: TextField): (l: Option<string>)
    ensures l.Some? ==> l.value != ""
  {
    var t := TextOf(c, f);
    if t.Some? && t.value != "" then Some(ToLower(t.value)) else None
  }

  /** The labels the sources vote with, in source order; sources without one are skipped. */
  function Labels(rs: seq<Reading>, f: TextField): seq<string>
    decreases |rs|
  {
    if |rs| == 0 then []
    else
      var l := Label(rs[|rs| - 1].current, f);
      Labels(rs[..|rs| - 1], f) + (if l.Some? then [l.value] else [])
  }

  /** A JavaScript object used as a counter: its keys in insertion order and their counts. */
  datatype Tally = Tally(keys: seq<string>, counts: map<string, nat>)

  predicate WellFormed(t: Tally) {
    forall i :: 0 <= i < |t.keys| ==> t.keys[i] in t.counts
  }

  /** `counts[v] = (counts[v] || 0) + 1`: a new key goes to the end of the key order. */
  function Increment(t: Tally, v: string): Tally {
    if v in t.counts then Tally(t.keys, t.counts[v := t.counts[v] + 1])
    else Tally(t.keys + [v], t.counts[v := 1])
  }

  /** The counter after counting `xs`, one label at a time, into an empty object. */
  function TallyOf(xs: seq<string>): Tally
    decreases |xs|
  {
    if |xs| == 0 then Tally([], map[]) else Increment(TallyOf(xs[..|xs| - 1]), xs[|xs| - 1])
  }

  /** The counter of `xs` holds the values of `xs` in first-seen order, each with its number of
      occurrences. */
  function CountsOf(xs: seq<string>): Tally {
    Tally(FirstSeen(xs), map v | v in xs :: Count(xs, v))
  }

  /** Index of the entry the `findMostCommon` scan settles on: the leftmost entry whose count is
      strictly larger than every earlier one and than 0; -1 when there is none. */
  function LeaderIndex(keys: seq<string>, counts: map<string, nat>): (k: int)
    requires forall i :: 0 <= i < |keys| ==> keys[i] in counts
    ensures -1 <= k < |keys|
    decreases |keys|
  {
    if |keys| == 0 then -1
    else
      var k := LeaderIndex(keys[..|keys| - 1], counts);
      var best := if k < 0 then 0 else counts[keys[k]];
      if counts[keys[|keys| - 1]] > best then |keys| - 1 else k
  }

  /** The value `findMostCommon` returns for a counter. */
  function MostCommon(t: Tally): Option<string>
    requires WellFormed(t)
  {
    var k := LeaderIndex(t.keys, t.counts);
    if k < 0 then None else Some(t.keys[k])
  }

  /** The winning label of a vote. */
  function Plurality(xs: seq<string>): Option<string> {
    TallyOfWellFormed(xs);
    MostCommon(TallyOf(xs))
  }

  /** The merged `current` object. With one source it is that source's object, unchanged and
      unrounded; with several it has exactly these nine members and no provider. */
  datatype Aggregated =
    | Single(current: Current)
    | Merged(
        temp: real, feelsLike: real, humidity: real, pressure: real,
        windSpeed: real, windDirection: real,
        description: Option<string>, condition: Option<string>, icon: Option<string>)
  {
    /** The averaged value of field `f` in a multi-source result. */
    function MergedValue(f: NumField): real
      requires Merged?
    {
      match f
      case Temp => temp
      case FeelsLike => feelsLike
      case Humidity => humidity
      case Pressure => pressure
      case WindSpeed => windSpeed
      case WindDirection => windDirection
    }
  }

  /** What `aggregateWeatherData(sources)` returns; `None` is its `null`. */
  function Aggregate(rs: seq<Reading>): Option<Aggregated> {
    if |rs| == 0 then None
    else if |rs| == 1 then Some(Single(rs[0].current))
    else Some(Merged(
      Mean(rs, Temp), Mean(rs, FeelsLike), Mean(rs, Humidity), Mean(rs, Pressure),
      Mean(rs, WindSpeed), Mean(rs, WindDirection),
      Plurality(Labels(rs, Description)), Plurality(Labels(rs, Condition)),
      rs[0].current.icon))
  }

  // ---------------------------------------------------------------------------------------
  // The counter

  lemma CountsOfWellFormed(xs: seq<string>)
    ensures WellFormed(CountsOf(xs))
  {
    var t := CountsOf(xs);
    forall i | 0 <= i < |t.keys| ensures t.keys[i] in t.counts {
      FirstSeenOccurs(xs, i);
    }
  }

  /** Counting one more label into the counts of `xs` gives the counts of `xs + [x]`. */
  lemma IncrementCountsOf(xs: seq<string>, x: string)
    ensures Increment(CountsOf(xs), x) == CountsOf(xs + [x])
  {
    var t, u := CountsOf(xs), CountsOf(xs + [x]);
    assert (xs + [x])[..|xs|] == xs;
    FirstSeenMembers(xs);
    forall v | v in xs + [x] ensures Count(xs + [x], v) == Count(xs, v) + (if x == v then 1 else 0) {
      CountAppend(xs, x, v);
    }
    CountPositive(xs, x);
    if x in xs {
      assert Increment(t, x).counts == u.counts;
    } else {
      assert Increment(t, x).counts == u.counts;
    }
  }

  /** The counter `aggregateWeatherData` builds holds every label once, in first-seen order,
      with its number of occurrences. */
  lemma {:induction false} TallyOfCounts(xs: seq<string>)
    ensures TallyOf(xs) == CountsOf(xs)
    decreases |xs|
  {
    if |xs| > 0 {
      var p := xs[..|xs| - 1];
      TallyOfCounts(p);
      IncrementCountsOf(p, xs[|xs| - 1]);
      assert p + [xs[|xs| - 1]] == xs;
    }
  }

  lemma TallyOfWellFormed(xs: seq<string>)
    ensures WellFormed(TallyOf(xs))
  {
    TallyOfCounts(xs);
    CountsOfWellFormed(xs);
  }

  /** The scan's choice is the leftmost largest count: nothing counts more, everything before
      it counts strictly less, and there is no choice exactly when every count is 0. */
  lemma {:induction false} LeaderIndexIsFirstMax(keys: seq<string>, counts: map<string, nat>)
    requires forall i :: 0 <= i < |keys| ==> keys[i] in counts
    ensures var k := LeaderIndex(keys, counts);
      && (k < 0 <==> forall j :: 0 <= j < |keys| ==> counts[keys[j]] == 0)
      && (k >= 0 ==>
            && counts[keys[k]] > 0
            && (forall j :: 0 <= j < |keys| ==> counts[keys[j]] <= counts[keys[k]])
            && (forall j :: 0 <= j < k ==> counts[keys[j]] < counts[keys[k]]))
    decreases |keys|
  {
    if |keys| > 0 {
      var p := keys[..|keys| - 1];
      LeaderIndexIsFirstMax(p, counts);
      assert forall j :: 0 <= j < |p| ==> p[j] == keys[j];
    }
  }

  /** The label vote: no winner exactly when no source has a label; otherwise the winner is a
      label that occurs, no label occurs more often, and any label tied with it occurs
      only after the winner has already appeared. */
  lemma PluralityIsFirstSeenMax(xs: seq<string>)
    ensures Plurality(xs).None? <==> xs == []
    ensures Plurality(xs).Some? ==>
      var v := Plurality(xs).value;
      && v in xs
      && (forall i :: 0 <= i < |xs| ==> Count(xs, xs[i]) <= Count(xs, v))
      && (forall i :: 0 <= i < |xs| && Count(xs, xs[i]) == Count(xs, v) ==> v in xs[..i + 1])
  {
    var t := TallyOf(xs);
    TallyOfCounts(xs);
    CountsOfWellFormed(xs);
    LeaderIndexIsFirstMax(t.keys, t.counts);
    FirstSeenMembers(xs);
    var k := LeaderIndex(t.keys, t.counts);
    if xs == [] {
      assert t.keys == [];
    } else {
      var j0 := FirstSeenIndex(xs, xs[0]);
      CountPositive(xs, xs[0]);
      assert t.counts[t.keys[j0]] > 0;
      assert k >= 0;
      var v := t.keys[k];
      FirstSeenOccurs(xs, k);
      forall i | 0 <= i < |xs| ensures Count(xs, xs[i]) <= Count(xs, v)
        && (Count(xs, xs[i]) == Count(xs, v) ==> v in xs[..i + 1])
      {
        var j := FirstSeenIndex(xs, xs[i]);
        assert t.counts[t.keys[j]] == Count(xs, xs[i]);
        if Count(xs, xs[i]) == Count(xs, v) {
          assert k <= j;
          FirstSeenOrder(xs, k, j, i);
        }
      }
    }
  }

  // ---------------------------------------------------------------------------------------
  // The numeric fields

  /** When every source reports the same value `v` for a field, the sum is `n * v`. */
  lemma {:induction false} SumOfAgreeing(rs: seq<Reading>, f: NumField, v: real)
    requires forall i :: 0 <= i < |rs| ==> NumOf(rs[i].current, f) == Some(v)
    ensures Sum(rs, f) == |rs| as real * v
    decreases |rs|
  {
    if |rs| > 0 {
      SumOfAgreeing(rs[..|rs| - 1], f, v);
    }
  }

  /** When every source reports a value in `[lo, hi]`, the sum lies in `[n * lo, n * hi]`. */
  lemma {:induction false} SumBounds(rs: seq<Reading>, f: NumField, lo: real, hi: real)
    requires forall i :: 0 <= i < |rs| ==>
      NumOf(rs[i].current, f).Some? && lo <= NumOf(rs[i].current, f).value <= hi
    ensures |rs| as real * lo <= Sum(rs, f) <= |rs| as real * hi
    decreases |rs|
  {
    if |rs| > 0 {
      var init, n := rs[..|rs| - 1], (|rs| - 1) as real;
      SumBounds(init, f, lo, hi);
      var x := OrZero(NumOf(rs[|rs| - 1].current, f));
      assert lo <= x <= hi;
      assert Sum(rs, f) == Sum(init, f) + x;
      assert |rs| as real * lo == n * lo + lo && |rs| as real * hi == n * hi + hi;
    }
  }

  /** A missing reading contributes exactly what a reading of 0 would. */
  lemma {:induction false} MissingCountsAsZero(rs: seq<Reading>, f: NumField, i: nat, c: Current)
    requires i < |rs| && NumOf(rs[i].current, f).None? && NumOf(c, f) == Some(0.0)
    ensures Sum(rs, f) == Sum(rs[i := rs[i].(current := c)], f)
    decreases |rs|
  {
    var rs2 := rs[i := rs[i].(current := c)];
    if i < |rs| - 1 {
      assert rs2[..|rs2| - 1] == rs[..|rs| - 1][i := rs[i].(current := c)];
      MissingCountsAsZero(rs[..|rs| - 1], f, i, c);
    } else {
      assert rs2[..|rs2| - 1] == rs[..|rs| - 1];
    }
  }

  lemma {:induction false} SumConcat(a: seq<Reading>, b: seq<Reading>, f: NumField)
    ensures Sum(a + b, f) == Sum(a, f) + Sum(b, f)
    decreases |b|
  {
    if b == [] {
      assert a + b == a;
    } else {
      var b1 := b[..|b| - 1];
      assert (a + b)[..|a + b| - 1] == a + b1;
      SumConcat(a, b1, f);
    }
  }

  /** The sum does not depend on the order the sources settled in. */
  lemma {:induction false} SumPermutation(rs: seq<Reading>, rs2: seq<Reading>, f: NumField)
    requires multiset(rs) == multiset(rs2)
    ensures Sum(rs, f) == Sum(rs2, f)
    decreases |rs|
  {
    if rs == [] {
      assert |rs2| == |multiset(rs2)| == 0;
    } else {
      var p, x := rs[..|rs| - 1], rs[|rs| - 1];
      var i := RemoveMatching(rs, rs2);
      var a, b := rs2[..i], rs2[i + 1..];
      SumPermutation(p, a + b, f);
      SumConcat(a, b, f);
      SumConcat(a + [x], b, f);
      SumConcat(a, [x], f);
      assert a + [x] + b == rs2;
      assert Sum([x], f) == OrZero(NumOf(x.current, f));
    }
  }

  /** The merged numeric values do not depend on the order the sources settled in. */
  lemma MeanIndependentOfOrder(rs: seq<Reading>, rs2: seq<Reading>, f: NumField)
    requires |rs| > 0 && multiset(rs) == multiset(rs2)
    ensures |rs2| == |rs| && Mean(rs2, f) == Mean(rs, f)
  {
    assert |rs2| == |multiset(rs2)| == |multiset(rs)| == |rs|;
    SumPermutation(rs, rs2, f);
  }

  /** Agreeing sources: when every source reports the same two-decimal value, the merged value
      is that value. */
  lemma MeanOfAgreeing(rs: seq<Reading>, f: NumField, k: int)
    requires |rs| > 0
    requires forall i :: 0 <= i < |rs| ==> NumOf(rs[i].current, f) == Some(k as real / 100.0)
    ensures Mean(rs, f) == k as real / 100.0
  {
    SumOfAgreeing(rs, f, k as real / 100.0);
    var n := |rs| as real;
    assert Sum(rs, f) / n == k as real / 100.0;
    Round2Hundredths(k);
  }

  /** When every source reports the field, the merged value stays within the sources' range,
      up to half a hundredth of rounding. */
  lemma MeanWithinRange(rs: seq<Reading>, f: NumField, lo: real, hi: real)
    requires |rs| > 0
    requires forall i :: 0 <= i < |rs| ==>
      NumOf(rs[i].current, f).Some? && lo <= NumOf(rs[i].current, f).value <= hi
    ensures lo - 0.005 <= Mean(rs, f) <= hi + 0.005
  {
    SumBounds(rs, f, lo, hi);
    var n := |rs| as real;
    var s := Sum(rs, f);
    assert n * lo <= s <= n * hi;
    assert lo <= s / n <= hi;
    Round2Error(s / n);
  }

  // ---------------------------------------------------------------------------------------
  // The merged record

  /** A multi-source merge: every numeric member is the rounded mean over all sources, the two
      text members are the label votes, the icon is the first source's, verbatim. */
  lemma AggregateMerged(rs: seq<Reading>, f: NumField)
    requires |rs| >= 2
    ensures Aggregate(rs).Some? && Aggregate(rs).value.Merged?
    ensures Aggregate(rs).value.MergedValue(f) == Round2(Sum(rs, f) / |rs| as real)
    ensures Aggregate(rs).value.icon == rs[0].current.icon
    ensures Aggregate(rs).value.description == Plurality(Labels(rs, Description))
    ensures Aggregate(rs).value.condition == Plurality(Labels(rs, Condition))
  {
  }

  /** The vote of a merge: a description (or condition) wins only if some source reported it,
      in any letter case. */
  lemma {:induction false} LabelsComeFromSources(rs: seq<Reading>, f: TextField, v: string)
    requires v in Labels(rs, f)
    ensures exists i :: 0 <= i < |rs| && Label(rs[i].current, f) == Some(v)
    decreases |rs|
  {
    var p := rs[..|rs| - 1];
    if v in Labels(p, f) {
      LabelsComeFromSources(p, f, v);
      var i :| 0 <= i < |p| && Label(p[i].current, f) == Some(v);
      assert rs[i] == p[i];
    } else {
      assert Label(rs[|rs| - 1].current, f) == Some(v);
    }
  }

  // ---------------------------------------------------------------------------------------
  // The imperative code

  /** `findMostCommon(countObj)`: walks the entries in key order, keeping the first count that
      is strictly larger than the best so far. */
  method FindMostCommon(t: Tally) returns (mostCommon: Option<string>)
    requires WellFormed(t)
    ensures mostCommon == MostCommon(t)
    ensures mostCommon.None? <==> forall j :: 0 <= j < |t.keys| ==> t.counts[t.keys[j]] == 0
    ensures mostCommon.Some? ==>
      mostCommon.value in t.keys
      && forall j :: 0 <= j < |t.keys| ==> t.counts[t.keys[j]] <= t.counts[mostCommon.value]
  {
    var maxCount := 0;
    mostCommon := None;
    ghost var k := -1;
    for i := 0 to |t.keys|
      invariant k == LeaderIndex(t.keys[..i], t.counts)
      invariant k < 0 ==> maxCount == 0 && mostCommon.None?
      invariant k >= 0 ==> k < i && maxCount == t.counts[t.keys[k]] && mostCommon == Some(t.keys[k])
    {
      assert t.keys[..i + 1][..i] == t.keys[..i];
      var value, count := t.keys[i], t.counts[t.keys[i]];
      if count > maxCount {
        maxCount := count;
        mostCommon := Some(value);
        k := i;
      }
    }
    assert t.keys[..|t.keys|] == t.keys;
    LeaderIndexIsFirstMax(t.keys, t.counts);
  }

  /** The working object of `aggregateWeatherData` while it walks the sources: six running sums
      and the two label counters. */
  datatype Accumulator = Accumulator(
    temp: real, feelsLike: real, humidity: real, pressure: real,
    windSpeed: real, windDirection: real,
    descriptions: Tally, conditions: Tally)

  lemma SumStep(rs: seq<Reading>, i: nat, f: NumField)
    requires i < |rs|
    ensures Sum(rs[..i + 1], f) == Sum(rs[..i], f) + OrZero(NumOf(rs[i].current, f))
  {
    assert rs[..i + 1][..i] == rs[..i];
  }

  lemma LabelsStep(rs: seq<Reading>, i: nat, f: TextField)
    requires i < |rs|
    ensures Label(rs[i].current, f).None? ==> Labels(rs[..i + 1], f) == Labels(rs[..i], f)
    ensures Label(rs[i].current, f).Some? ==>
      Labels(rs[..i + 1], f) == Labels(rs[..i], f) + [Label(rs[i].current, f).value]
    ensures Label(rs[i].current, f).Some? ==>
      TallyOf(Labels(rs[..i + 1], f)) == Increment(TallyOf(Labels(rs[..i], f)), Label(rs[i].current, f).value)
  {
    var l := Labels(rs[..i], f);
    assert rs[..i + 1][..i] == rs[..i];
    assert l + [] == l;
    if Label(rs[i].current, f).Some? {
      var x := Label(rs[i].current, f).value;
      assert (l + [x])[..|l|] == l;
    }
  }

  /** The working object after the walk over `rs`. */
  function Accumulated(rs: seq<Reading>): Accumulator {
    Accumulator(
      Sum(rs, Temp), Sum(rs, FeelsLike), Sum(rs, Humidity), Sum(rs, Pressure),
      Sum(rs, WindSpeed), Sum(rs, WindDirection),
      TallyOf(Labels(rs, Description)), TallyOf(Labels(rs, Condition)))
  }

  /** One source's turn of the walk. */
  function Visit(a: Accumulator, c: Current): Accumulator {
    var desc, cond := Label(c, Description), Label(c, Condition);
    Accumulator(
      a.temp + OrZero(c.temp), a.feelsLike + OrZero(c.feelsLike), a.humidity + OrZero(c.humidity),
      a.pressure + OrZero(c.pressure), a.windSpeed + OrZero(c.windSpeed),
      a.windDirection + OrZero(c.windDirection),
      if desc.Some? then Increment(a.descriptions, desc.value) else a.descriptions,
      if cond.Some? then Increment(a.conditions, cond.value) else a.conditions)
  }

  /** One source's turn of a label tally: its label, if any, is counted once more. */
  lemma TallyStep(rs: seq<Reading>, i: nat, f: TextField)
    requires i < |rs|
    ensures var l, t := Label(rs[i].current, f), TallyOf(Labels(rs[..i], f));
      TallyOf(Labels(rs[..i + 1], f)) == if l.Some? then Increment(t, l.value) else t
  {
    LabelsStep(rs, i, f);
  }

  lemma AccumulatedStep(rs: seq<Reading>, i: nat)
    requires i < |rs|
    ensures Accumulated(rs[..i + 1]) == Visit(Accumulated(rs[..i]), rs[i].current)
  {
    var b, v := Accumulated(rs[..i + 1]), Visit(Accumulated(rs[..i]), rs[i].current);
    SumStep(rs, i, Temp);
    SumStep(rs, i, FeelsLike);
    SumStep(rs, i, Humidity);
    assert b.temp == v.temp && b.feelsLike == v.feelsLike && b.humidity == v.humidity;
    SumStep(rs, i, Pressure);
    SumStep(rs, i, WindSpeed);
    SumStep(rs, i, WindDirection);
    assert b.pressure == v.pressure && b.windSpeed == v.windSpeed && b.windDirection == v.windDirection;
    TallyStep(rs, i, Description);
    TallyStep(rs, i, Condition);
    assert b.descriptions == v.descriptions && b.conditions == v.conditions;
  }

  /** The `forEach` over the sources: adds each numeric reading (`|| 0`) to its sum and
      counts each truthy lower-cased label. */
  method SumAndCount(rs: seq<Reading>) returns (result: Accumulator)
    ensures result == Accumulated(rs)
  {
    result := Accumulator(0.0, 0.0, 0.0, 0.0, 0.0, 0.0, Tally([], map[]), Tally([], map[]));
    for i := 0 to |rs|
      invariant result == Accumulated(rs[..i])
    {
      var current := rs[i].current;
      ghost var before := result;
      result := result.(
        temp := result.temp + OrZero(current.temp),
        feelsLike := result.feelsLike + OrZero(current.feelsLike),
        humidity := result.humidity + OrZero(current.humidity),
        pressure := result.pressure + OrZero(current.pressure),
        windSpeed := result.windSpeed + OrZero(current.windSpeed),
        windDirection := result.windDirection + OrZero(current.windDirection));
      var desc := Label(current, Description);
      var cond := Label(current, Condition);
      if desc.Some? {
        result := result.(descriptions := Increment(result.descriptions, desc.value));
      }
      if cond.Some? {
        result := result.(conditions := Increment(result.conditions, cond.value));
      }
      assert result == Visit(before, current);
      AccumulatedStep(rs, i);
    }
    assert rs[..|rs|] == rs;
  }

  /** `aggregateWeatherData(sources)`: `null` for no source, the sole source's `current` object
      for one, and otherwise the sums divided by the number of sources and rounded, the two
      votes, and the first source's icon; the counters are not part of the result. */
  method AggregateWeatherData(rs: seq<Reading>) returns (r: Option<Aggregated>)
    ensures r == Aggregate(rs)
    ensures r.None? <==> rs == []
    ensures |rs| == 1 ==> r == Some(Single(rs[0].current))
    ensures |rs| >= 2 ==> r.Some? && r.value.Merged? && r.value.icon == rs[0].current.icon
  {
    if |rs| == 0 {
      return None;
    }
    if |rs| == 1 {
      return Some(Single(rs[0].current));
    }
    var result := SumAndCount(rs);
    var n := |rs| as real;
    TallyOfWellFormed(Labels(rs, Description));
    TallyOfWellFormed(Labels(rs, Condition));
    var description := FindMostCommon(result.descriptions);
    var condition := FindMostCommon(result.conditions);
    r := Some(Merged(
      Round2(result.temp / n), Round2(result.feelsLike / n), Round2(result.humidity / n),
      Round2(result.pressure / n), Round2(result.windSpeed / n), Round2(result.windDirection / n),
      description, condition, rs[0].current.icon));
  }
}
