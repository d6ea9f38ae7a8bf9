/**
 * The metric bookkeeping of dn3/trainable/trainable.py: metric dictionaries
 * (ordered, as OrderedDict and Python's dict are), the running average that
 * `evaluate.update_metrics` keeps, and the summary line `standard_logging`
 * writes. Metric values are reals; the digits Python's `{:.2%}` and `{:.2f}`
 * print are left to a rendering function.
 */
module MetricDicts {
  import opened Wrappers
  import Text

  /** An insertion-ordered dictionary from metric names to values: `keys` is its iteration order. */
  datatype Metrics = Metrics(keys: seq<string>, vals: map<string, real>)

  /** No name occurs twice. */
  predicate Distinct(s: seq<string>)
    decreases |s|
  {
    |s| == 0 || (s[|s| - 1] !in s[..|s| - 1] && Distinct(s[..|s| - 1]))
  }

  lemma {:induction false} DistinctIndices(s: seq<string>)
    requires Distinct(s)
    ensures forall i, j :: 0 <= i < j < |s| ==> s[i] != s[j]
    decreases |s|
  {
    if |s| > 0 {
      DistinctIndices(s[..|s| - 1]);
    }
  }

  /** What every Python dict satisfies: the key order lists each key of the map exactly once. */
  predicate WellFormed(d: Metrics)
  {
    && Distinct(d.keys)
    && (forall k :: k in d.vals ==> k in d.keys)
    && (forall i :: 0 <= i < |d.keys| ==> d.keys[i] in d.vals)
  }


  /** The facts about a well-formed dictionary that proofs use. */
  lemma Members(d: Metrics)
    requires WellFormed(d)
    ensures forall k :: k in d.vals <==> k in d.keys
    ensures forall i, j :: 0 <= i < j < |d.keys| ==> d.keys[i] != d.keys[j]
  {
    DistinctIndices(d.keys);
  }

  const Empty: Metrics := Metrics([], map[])

  datatype MetricError =
    | KeyError(key: string)  // update_metrics: a batch reports a metric the accumulator lacks
    | IndexError             // standard_logging: an empty or all-whitespace start message

  /** `d[k] = v`: a new key goes last, an existing key keeps its place. */
  function Put(d: Metrics, k: string, v: real): (r: Metrics)
    ensures r.vals == d.vals[k := v]
    ensures k in d.vals ==> r.keys == d.keys
    ensures k !in d.vals ==> r.keys == d.keys + [k]
  {
    if k in d.vals then Metrics(d.keys, d.vals[k := v]) else Metrics(d.keys + [k], d.vals[k := v])
  }

  /** An assignment keeps the existing keys, in order, at the front. */
  lemma PutExtendsKeys(d: Metrics, k: string, v: real)
    ensures |d.keys| <= |Put(d, k, v).keys| && Put(d, k, v).keys[..|d.keys|] == d.keys
  {
    if k !in d.vals {
      assert (d.keys + [k])[..|d.keys|] == d.keys;
    }
  }

  lemma PrefixTrans(a: seq<string>, b: seq<string>, c: seq<string>)
    requires |a| <= |b| <= |c| && b[..|a|] == a && c[..|b|] == b
    ensures c[..|a|] == a
  {
    assert c[..|a|] == c[..|b|][..|a|];
  }

  /** The assignments `d[k] = v` for each pair of `fields`, in order. */
  function PutAll(d: Metrics, fields: seq<(string, real)>): Metrics
    decreases |fields|
  {
    if |fields| == 0 then d else PutAll(Put(d, fields[0].0, fields[0].1), fields[1..])
  }

  /** `dict(items)`: the dict built from key/value pairs, a later pair overwriting an earlier one in place. */
  function FromItems(items: seq<(string, real)>): Metrics
  {
    PutAll(Empty, items)
  }

  /** Assignments keep a dict well formed. */
  lemma {:induction false} PutAllKeepsWellFormed(d: Metrics, fields: seq<(string, real)>)
    requires WellFormed(d)
    ensures WellFormed(PutAll(d, fields))
    decreases |fields|
  {
    if |fields| > 0 {
      PutKeepsWellFormed(d, fields[0].0, fields[0].1);
      PutAllKeepsWellFormed(Put(d, fields[0].0, fields[0].1), fields[1..]);
    }
  }

  /** A dict built from pairs is well formed: distinct keys, each with a value. */
  lemma FromItemsWellFormed(items: seq<(string, real)>)
    ensures WellFormed(FromItems(items))
  {
    PutAllKeepsWellFormed(Empty, items);
  }

  /** Three assignments in a row. */
  lemma PutAllThree(d: Metrics, a: (string, real), b: (string, real), c: (string, real))
    ensures PutAll(d, [a, b, c]) == Put(Put(Put(d, a.0, a.1), b.0, b.1), c.0, c.1)
  {
    var fields := [a, b, c];
    assert fields[1..] == [b, c] && fields[1..][1..] == [c] && fields[1..][1..][1..] == [];
    var d1 := Put(d, a.0, a.1);
    var d2 := Put(d1, b.0, b.1);
    assert PutAll(d, fields) == PutAll(d1, [b, c]);
    assert PutAll(d1, [b, c]) == PutAll(d2, [c]);
    assert PutAll(d2, [c]) == PutAll(Put(d2, c.0, c.1), []);
  }

  lemma PutKeepsWellFormed(d: Metrics, k: string, v: real)
    requires WellFormed(d)
    ensures WellFormed(Put(d, k, v))
  {
    if k !in d.vals {
      assert (d.keys + [k])[..|d.keys|] == d.keys;
    }
  }

  /** `d.setdefault(k, v)`: add k only if it is missing. */
  function SetDefault(d: Metrics, k: string, v: real): (r: Metrics)
    ensures k in r.vals
    ensures k in d.vals ==> r == d
    ensures k !in d.vals ==> r.vals == d.vals[k := v] && r.keys == d.keys + [k]
  {
    if k in d.vals then d else Put(d, k, v)
  }

  // ---------------------------------------------------------------------------
  // evaluate.update_metrics
  // ---------------------------------------------------------------------------

  /** The value update_metrics stores: `(old * (iterations - 1) + new) / iterations`. */
  function RunningMean(previous: real, latest: real, iterations: nat): real
    requires iterations >= 1
  {
    (previous * (iterations - 1) as real + latest) / iterations as real
  }

  /** The first of `keys` that the accumulator lacks. */
  function FirstMissing(keys: seq<string>, present: map<string, real>): (r: Option<string>)
    ensures r.None? <==> forall i :: 0 <= i < |keys| ==> keys[i] in present
    ensures r.Some? ==> r.value !in present && r.value in keys
  {
    if |keys| == 0 then None
    else if keys[0] !in present then Some(keys[0])
    else FirstMissing(keys[1..], present)
  }

  lemma {:induction false} FirstMissingAt(keys: seq<string>, present: map<string, real>, i: nat)
    requires i < |keys| && keys[i] !in present
    requires forall q :: 0 <= q < i ==> keys[q] in present
    ensures FirstMissing(keys, present) == Some(keys[i])
  {
    if i > 0 {
      FirstMissingAt(keys[1..], present, i - 1);
    }
  }

  /**
   * One call of update_metrics on accumulated `acc` with a batch's metrics:
   * an empty accumulator takes the batch's metrics as they are; otherwise each
   * metric of the batch is averaged into the accumulator, and a metric the
   * accumulator lacks raises KeyError.
   */
  function UpdateMetrics(acc: Metrics, batch: Metrics, iterations: nat): (r: Result<Metrics, MetricError>)
    requires iterations >= 1
  {
    if |acc.keys| == 0 then Success(batch)
    else match FirstMissing(batch.keys, acc.vals)
      case Some(k) => Failure(KeyError(k))
      case None =>
        Success(Metrics(acc.keys, map k | k in acc.vals ::
          if k in batch.vals then RunningMean(acc.vals[k], batch.vals[k], iterations) else acc.vals[k]))
  }

  /** What one update does to each metric, in both branches, and when it raises. */
  lemma UpdateMetricsEffect(acc: Metrics, batch: Metrics, iterations: nat)
    requires iterations >= 1 && WellFormed(batch)
    ensures |acc.keys| == 0 ==> UpdateMetrics(acc, batch, iterations) == Success(batch)
    ensures |acc.keys| > 0 ==>
      (UpdateMetrics(acc, batch, iterations).Failure? <==> exists k :: k in batch.vals && k !in acc.vals)
    ensures |acc.keys| > 0 && UpdateMetrics(acc, batch, iterations).Success? ==>
      var r := UpdateMetrics(acc, batch, iterations).value;
      && r.keys == acc.keys
      && (forall k :: k in acc.vals && k in batch.vals ==> r.vals[k] == RunningMean(acc.vals[k], batch.vals[k], iterations))
      && (forall k :: k in acc.vals && k !in batch.vals ==> r.vals[k] == acc.vals[k])
  {
    Members(batch);
    if |acc.keys| > 0 && FirstMissing(batch.keys, acc.vals).Some? {
      var k := FirstMissing(batch.keys, acc.vals).value;
      assert k in batch.vals && k !in acc.vals;
    }
  }

  /** Once every metric of the batch has been averaged in, the result is the one UpdateMetrics describes. */
  lemma AllAveraged(acc: Metrics, batch: Metrics, iterations: nat, metrics: Metrics)
    requires iterations >= 1 && |acc.keys| > 0 && WellFormed(batch)
    requires metrics.keys == acc.keys
    requires forall k :: k in metrics.vals <==> k in acc.vals
    requires forall q :: 0 <= q < |batch.keys| ==> batch.keys[q] in acc.vals
    requires forall k :: k in metrics.vals ==>
      metrics.vals[k] == if k in batch.keys then RunningMean(acc.vals[k], batch.vals[k], iterations) else acc.vals[k]
    ensures UpdateMetrics(acc, batch, iterations) == Success(metrics)
  {
    Members(batch);
    var expected := map k | k in acc.vals ::
      if k in batch.vals then RunningMean(acc.vals[k], batch.vals[k], iterations) else acc.vals[k];
    assert metrics.vals.Keys == expected.Keys;
    assert forall k :: k in expected ==> metrics.vals[k] == expected[k];
    assert metrics.vals == expected;
    assert FirstMissing(batch.keys, acc.vals) == None;
  }

  /** update_metrics: copy into an empty accumulator, or average the batch's metrics in one by one. */
  method UpdateMetricsInPlace(acc: Metrics, batch: Metrics, iterations: nat) returns (r: Result<Metrics, MetricError>)
    requires iterations >= 1 && WellFormed(batch)
    ensures r == UpdateMetrics(acc, batch, iterations)
  {
    if |acc.keys| == 0 {
      return Success(batch);
    }
    var metrics := acc;
    for i := 0 to |batch.keys|
      invariant metrics.keys == acc.keys
      invariant forall k :: k in metrics.vals <==> k in acc.vals
      invariant forall q :: 0 <= q < i ==> batch.keys[q] in acc.vals
      invariant forall k :: k in metrics.vals ==>
        metrics.vals[k] == if k in batch.keys[..i] then RunningMean(acc.vals[k], batch.vals[k], iterations) else acc.vals[k]
    {
      var m := batch.keys[i];
      if m !in metrics.vals {
        FirstMissingAt(batch.keys, acc.vals, i);
        return Failure(KeyError(m));
      }
      DistinctIndices(batch.keys);
      assert m !in batch.keys[..i];
      assert batch.keys[..i + 1] == batch.keys[..i] + [m];
      metrics := Put(metrics, m, RunningMean(metrics.vals[m], batch.vals[m], iterations));
    }
    assert batch.keys[..|batch.keys|] == batch.keys;
    AllAveraged(acc, batch, iterations, metrics);
    r := Success(metrics);
  }

  /** An update of well-formed dictionaries is well formed: it keeps the accumulator's keys, or copies the batch. */
  lemma UpdateKeepsWellFormed(acc: Metrics, batch: Metrics, iterations: nat)
    requires iterations >= 1 && WellFormed(acc) && WellFormed(batch)
    requires UpdateMetrics(acc, batch, iterations).Success?
    ensures WellFormed(UpdateMetrics(acc, batch, iterations).value)
  {
  }

  /** The accumulator after the batches of `ms`, the i-th of them (from 0) counted as iteration i + 1. */
  function Accumulate(ms: seq<Metrics>): (r: Result<Metrics, MetricError>)
    decreases |ms|
  {
    if |ms| == 0 then Success(Empty)
    else match Accumulate(ms[..|ms| - 1])
      case Failure(e) => Failure(e)
      case Success(acc) => UpdateMetrics(acc, ms[|ms| - 1], |ms|)
  }

  /** The last batch: the running result of all batches is update_metrics on that of all but the last. */
  lemma AccumulateLast(ms: seq<Metrics>)
    requires |ms| > 0 && Accumulate(ms[..|ms| - 1]).Success?
    ensures Accumulate(ms) == UpdateMetrics(Accumulate(ms[..|ms| - 1]).value, ms[|ms| - 1], |ms|)
  {
  }

  /** One more batch: the running result of i + 1 batches is update_metrics on that of the first i. */
  lemma AccumulateStep(ms: seq<Metrics>, i: nat)
    requires i < |ms| && Accumulate(ms[..i]).Success?
    ensures Accumulate(ms[..i + 1]) == UpdateMetrics(Accumulate(ms[..i]).value, ms[i], i + 1)
  {
    assert ms[..i + 1][..i] == ms[..i];
  }

  lemma {:induction false} AccumulateWellFormed(ms: seq<Metrics>)
    requires forall i :: 0 <= i < |ms| ==> WellFormed(ms[i])
    requires Accumulate(ms).Success?
    ensures WellFormed(Accumulate(ms).value)
    decreases |ms|
  {
    if |ms| > 0 {
      var prefix := ms[..|ms| - 1];
      AccumulateWellFormed(prefix);
      UpdateKeepsWellFormed(Accumulate(prefix).value, ms[|ms| - 1], |ms|);
    }
  }

  /** How many batches evaluate gets through: all of them, or up to and including the one update_metrics raises on. */
  function BatchesSeen(ms: seq<Metrics>): (n: nat)
    ensures n <= |ms|
    decreases |ms|
  {
    if |ms| == 0 then 0
    else if Accumulate(ms[..|ms| - 1]).Failure? then BatchesSeen(ms[..|ms| - 1])
    else |ms|
  }

  /** Once update_metrics raises on batch j, the failure sticks: evaluate sees j batches and ends with that error. */
  lemma {:induction false} BatchesSeenAt(ms: seq<Metrics>, j: nat)
    requires 0 < j <= |ms| && Accumulate(ms[..j - 1]).Success? && Accumulate(ms[..j]).Failure?
    ensures BatchesSeen(ms) == j && Accumulate(ms) == Accumulate(ms[..j])
    decreases |ms|
  {
    if |ms| == j {
      assert ms[..j] == ms;
      assert ms[..|ms| - 1] == ms[..j - 1];
    } else {
      var prefix := ms[..|ms| - 1];
      assert prefix[..j] == ms[..j] && prefix[..j - 1] == ms[..j - 1];
      BatchesSeenAt(prefix, j);
    }
  }

  lemma BatchesSeenAll(ms: seq<Metrics>)
    requires Accumulate(ms).Success?
    ensures BatchesSeen(ms) == |ms|
  {
  }

  /** Σ_{i < n} ms[i][k]. */
  function Total(ms: seq<Metrics>, k: string, n: nat): real
    requires n <= |ms| && forall i :: 0 <= i < n ==> k in ms[i].vals
  {
    if n == 0 then 0.0 else Total(ms, k, n - 1) + ms[n - 1].vals[k]
  }

  lemma MeanStep(total: real, latest: real, n: nat)
    requires n >= 1
    ensures n > 1 ==> RunningMean(total / (n - 1) as real, latest, n) == (total + latest) / n as real
  {
    if n > 1 {
      var m := (n - 1) as real;
      assert total / m * m == total;
    }
  }

  /** Two well-formed dictionaries with the same key order have the same domain. */
  lemma SameKeysSameDomain(a: Metrics, b: Metrics)
    requires WellFormed(a) && WellFormed(b) && a.keys == b.keys
    ensures a.vals.Keys == b.vals.Keys
  {
    Members(a);
    Members(b);
  }

  /** A non-empty accumulator averages in a batch that reports exactly its metrics. */
  lemma MeanUpdate(acc: Metrics, batch: Metrics, n: nat)
    requires n > 1 && |acc.keys| > 0 && WellFormed(batch) && batch.vals.Keys == acc.vals.Keys
    ensures UpdateMetrics(acc, batch, n).Success?
    ensures UpdateMetrics(acc, batch, n).value.keys == acc.keys
    ensures forall k :: k in acc.vals ==>
      UpdateMetrics(acc, batch, n).value.vals[k] == RunningMean(acc.vals[k], batch.vals[k], n)
  {
    UpdateMetricsEffect(acc, batch, n);
  }

  /**
   * When every batch reports the same, non-empty set of metrics, the
   * accumulator after n batches holds, for each metric, the mean of its n values.
   */
  lemma {:induction false} AccumulateIsMean(ms: seq<Metrics>)
    requires |ms| > 0 && |ms[0].keys| > 0
    requires forall i :: 0 <= i < |ms| ==> WellFormed(ms[i]) && ms[i].vals.Keys == ms[0].vals.Keys
    ensures Accumulate(ms).Success?
    ensures Accumulate(ms).value.keys == ms[0].keys && Accumulate(ms).value.vals.Keys == ms[0].vals.Keys
    ensures forall k :: k in ms[0].vals ==> Accumulate(ms).value.vals[k] == Total(ms, k, |ms|) / |ms| as real
    decreases |ms|
  {
    var n := |ms|;
    if n == 1 {
      assert ms[..0] == [];
      assert Accumulate(ms) == UpdateMetrics(Empty, ms[0], 1);
    } else {
      var prefix := ms[..n - 1];
      assert prefix[0] == ms[0];
      AccumulateIsMean(prefix);
      AccumulateMeanStep(ms, Accumulate(prefix).value);
    }
  }

  /** The inductive step of AccumulateIsMean: the mean of n - 1 batches, updated with batch n. */
  lemma AccumulateMeanStep(ms: seq<Metrics>, acc: Metrics)
    requires |ms| > 1 && |ms[0].keys| > 0 && WellFormed(ms[|ms| - 1])
    requires forall i :: 0 <= i < |ms| ==> ms[i].vals.Keys == ms[0].vals.Keys
    requires Accumulate(ms[..|ms| - 1]) == Success(acc)
    requires acc.keys == ms[0].keys && acc.vals.Keys == ms[0].vals.Keys
    requires forall k :: k in ms[0].vals ==> acc.vals[k] == Total(ms[..|ms| - 1], k, |ms| - 1) / (|ms| - 1) as real
    ensures Accumulate(ms).Success?
    ensures Accumulate(ms).value.keys == ms[0].keys && Accumulate(ms).value.vals.Keys == ms[0].vals.Keys
    ensures forall k :: k in ms[0].vals ==> Accumulate(ms).value.vals[k] == Total(ms, k, |ms|) / |ms| as real
  {
    var n := |ms|;
    MeanUpdate(acc, ms[n - 1], n);
    AccumulateLast(ms);
    var r := Accumulate(ms).value;
    forall k | k in ms[0].vals
      ensures r.vals[k] == Total(ms, k, n) / n as real
    {
      MeanOfOneMore(ms, acc.vals[k], r.vals[k], k);
    }
  }

  /** One running-mean step takes the mean of the first n - 1 values to the mean of the first n. */
  lemma MeanOfOneMore(ms: seq<Metrics>, previous: real, next: real, k: string)
    requires |ms| > 1 && forall i :: 0 <= i < |ms| ==> k in ms[i].vals
    requires previous == Total(ms[..|ms| - 1], k, |ms| - 1) / (|ms| - 1) as real
    requires next == RunningMean(previous, ms[|ms| - 1].vals[k], |ms|)
    ensures next == Total(ms, k, |ms|) / |ms| as real
  {
    var n := |ms|;
    TotalPrefix(ms, ms[..n - 1], k, n - 1);
    MeanStep(Total(ms, k, n - 1), ms[n - 1].vals[k], n);
  }

  lemma {:induction false} TotalPrefix(ms: seq<Metrics>, prefix: seq<Metrics>, k: string, n: nat)
    requires n <= |prefix| <= |ms| && prefix == ms[..|prefix|]
    requires forall i :: 0 <= i < |ms| ==> k in ms[i].vals
    ensures Total(prefix, k, n) == Total(ms, k, n)
  {
    if n > 0 {
      TotalPrefix(ms, prefix, k, n - 1);
    }
  }

  /** If the first batch reported no metrics, the second batch's metrics are copied, not averaged with anything. */
  lemma EmptyFirstResultIsCopied(first: Metrics, second: Metrics)
    requires |first.keys| == 0
    ensures Accumulate([first, second]) == Success(second)
  {
    assert [first, second][..1] == [first];
    assert [first][..0] == [];
    assert Accumulate([first]) == UpdateMetrics(Empty, first, 1) == Success(first);
    assert Accumulate([first, second]) == UpdateMetrics(first, second, 2);
  }

  // ---------------------------------------------------------------------------
  // standard_logging
  // ---------------------------------------------------------------------------

  /** The two number formats of standard_logging: `{:.2%}` and `{:.2f}`. */
  datatype Format = Percent | Fixed

  /** A metric is printed as a percentage exactly when its name contains "acc" or "pct". */
  function FormatFor(name: string): (f: Format)
    ensures f == Percent <==> Text.Contains(name, "acc") || Text.Contains(name, "pct")
  {
    if Text.Contains(name, "acc") || Text.Contains(name, "pct") then Percent else Fixed
  }

  /** The segment `" name: value |"` of one metric; `render` stands for Python's float formatting. */
  function Segment(name: string, value: real, render: (Format, real) -> string): (s: string)
  {
    " " + name + ": " + render(FormatFor(name), value) + " |"
  }

  /** The start message after its check: closed with `" |"` unless, right-stripped, it already ends in `|`. */
  function Header(start: string): (r: Result<string, MetricError>)
  {
    var stripped := Text.RStrip(start);
    if |stripped| == 0 then Failure(IndexError)
    else if stripped[|stripped| - 1] != '|' then Success(stripped + " |")
    else Success(start)
  }

  /** The segments of the first n metrics, in the dictionary's order. */
  function Segments(d: Metrics, n: nat, render: (Format, real) -> string): string
    requires WellFormed(d) && n <= |d.keys|
  {
    if n == 0 then "" else Segments(d, n - 1, render) + Segment(d.keys[n - 1], d.vals[d.keys[n - 1]], render)
  }

  /** The line standard_logging writes, or the IndexError of an empty start message. */
  function LogLine(d: Metrics, start: string, render: (Format, real) -> string): (r: Result<string, MetricError>)
    requires WellFormed(d)
  {
    match Header(start)
    case Failure(e) => Failure(e)
    case Success(h) => Success(h + Segments(d, |d.keys|, render))
  }

  /** The first half of standard_logging: right-strip the start message, refuse an empty one, close it with a bar. */
  method CheckedStart(start: string) returns (r: Result<string, MetricError>)
    ensures r == Header(start)
  {
    var message := start;
    var stripped := Text.RStrip(message);
    if |stripped| == 0 {
      return Failure(IndexError);
    }
    if stripped[|stripped| - 1] != '|' {
      message := stripped + " |";
    }
    r := Success(message);
  }

  /** standard_logging: the checked start message, then one segment per metric appended in a loop. */
  method StandardLogging(metrics: Metrics, start: string, render: (Format, real) -> string) returns (r: Result<string, MetricError>)
    requires WellFormed(metrics)
    ensures r == LogLine(metrics, start, render)
  {
    var header := CheckedStart(start);
    if header.Failure? {
      return Failure(header.error);
    }
    var message := header.value;
    for i := 0 to |metrics.keys|
      invariant Header(start).Success?
      invariant message == Header(start).value + Segments(metrics, i, render)
    {
      var m := metrics.keys[i];
      var segment := Segment(m, metrics.vals[m], render);
      assert Segments(metrics, i + 1, render) == Segments(metrics, i, render) + segment;
      assert Header(start).value + Segments(metrics, i + 1, render) == message + segment;
      message := message + segment;
    }
    r := Success(message);
  }

  /** The header fails exactly for an empty or all-whitespace start, and, right-stripped, it ends in `|`. */
  lemma HeaderFacts(start: string)
    ensures Header(start).Failure? <==> |Text.RStrip(start)| == 0
    ensures Header(start).Success? ==>
      var h := Header(start).value;
      && |Text.RStrip(h)| > 0 && Text.RStrip(h)[|Text.RStrip(h)| - 1] == '|'
      && h[..|Text.RStrip(start)|] == Text.RStrip(start)
  {
    var stripped := Text.RStrip(start);
    if |stripped| > 0 && stripped[|stripped| - 1] != '|' {
      Text.RStripAppendNonSpace(stripped, " |");
    }
  }

  /** Every segment ends in `" |"`, so a non-empty run of segments does too. */
  lemma {:induction false} SegmentsEndInBar(d: Metrics, n: nat, render: (Format, real) -> string)
    requires WellFormed(d) && 0 < n <= |d.keys|
    ensures var s := Segments(d, n, render); |s| >= 2 && s[|s| - 2..] == " |"
  {
    var s := Segments(d, n, render);
    var last := Segment(d.keys[n - 1], d.vals[d.keys[n - 1]], render);
    assert s == Segments(d, n - 1, render) + last;
    assert last[|last| - 2..] == " |";
    assert s[|s| - 2..] == last[|last| - 2..];
  }

  /** A logged line, given back as a start message, is kept as it is: the header rule is idempotent. */
  lemma LogLineIsItsOwnHeader(d: Metrics, start: string, render: (Format, real) -> string)
    requires WellFormed(d) && LogLine(d, start, render).Success?
    ensures Header(LogLine(d, start, render).value) == LogLine(d, start, render)
  {
    var line := LogLine(d, start, render).value;
    var h := Header(start).value;
    HeaderFacts(start);
    if |d.keys| > 0 {
      SegmentsEndInBar(d, |d.keys|, render);
      assert line[|line| - 1] == '|';
      Text.RStripAppendNonSpace(line[..|line| - 1], [line[|line| - 1]]);
      assert line[..|line| - 1] + [line[|line| - 1]] == line;
    } else {
      assert line == h;
      var stripped := Text.RStrip(start);
      if stripped[|stripped| - 1] != '|' {
        Text.RStripAppendNonSpace(stripped, " |");
      } else {
        assert h == start;
      }
    }
  }
}
