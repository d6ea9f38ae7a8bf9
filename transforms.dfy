/**
 * The trial transforms of dn3/transforms/basic.py: the metadata hooks every
 * transform inherits, TemporalPadding (constant mode) and MappingDeep1010.
 * A trial is a two-dimensional tensor, one row per channel and one column per
 * sample; channel names are optional strings, because MappingDeep1010 names
 * an output channel that no input feeds `None`.
 */
module Transforms {
  import opened Wrappers
  import Text

  /** A two-dimensional tensor as rows of real entries. */
  datatype Grid = Grid(rows: nat, cols: nat, data: seq<seq<real>>)

  predicate Rectangular(g: Grid)
  {
    |g.data| == g.rows && forall i :: 0 <= i < |g.data| ==> |g.data[i]| == g.cols
  }

  /** Tensors are always rectangular. */
  type Matrix = g: Grid | Rectangular(g) witness Grid(0, 0, [])

  type Channel = Option<string>

  datatype TransformError =
    | IndexError     // `old_channels[i]` past the end of the channel list
    | TypeError      // `"-".join` over a channel name that is None
    | ShapeMismatch  // the matrix product of a trial whose channel count differs from the mapping's rows
    | InvalidPad     // torch.nn.functional.pad refuses the pad vector

  function Repeat(v: real, n: nat): (r: seq<real>)
    ensures |r| == n && forall i :: 0 <= i < n ==> r[i] == v
  {
    seq(n, _ => v)
  }

  // ---------------------------------------------------------------------------
  // TemporalPadding
  // ---------------------------------------------------------------------------

  /** Constant-value padding of one channel: `before` copies of `value`, the samples, `after` copies. */
  function PadSequence(s: seq<real>, before: nat, after: nat, value: real): (r: seq<real>)
    ensures |r| == |s| + before + after
  {
    Repeat(value, before) + s + Repeat(value, after)
  }

  /**
   * torch.nn.functional.pad in constant mode on a two-dimensional input, for a
   * pad vector of non-negative entries. Its documented rule: the vector has an
   * even length m with m/2 at most the number of dimensions. Entries 0 and 1
   * pad the last dimension (samples) at its start and end, entries 2 and 3 the
   * dimension before it (channels).
   */
  function ConstantPad2D(x: Matrix, pad: seq<nat>, value: real): (r: Result<Matrix, TransformError>)
    ensures r.Success? <==> |pad| % 2 == 0 && |pad| <= 4
  {
    if |pad| % 2 != 0 || |pad| > 4 then Failure(InvalidPad)
    else
      var left := if |pad| >= 2 then pad[0] else 0;
      var right := if |pad| >= 2 then pad[1] else 0;
      var top := if |pad| == 4 then pad[2] else 0;
      var bottom := if |pad| == 4 then pad[3] else 0;
      var width := x.cols + left + right;
      var padded := seq(x.rows, i requires 0 <= i < x.rows => PadSequence(x.data[i], left, right, value));
      var filler := seq(top, _ => Repeat(value, width));
      var trailer := seq(bottom, _ => Repeat(value, width));
      Success(Grid(x.rows + top + bottom, width, filler + padded + trailer))
  }

  /** A TemporalPadding transform as its constructor records it, in constant mode. */
  datatype TemporalPadding = TemporalPadding(startPadding: nat, endPadding: nat, constantValue: real) {

    /** `new_sequence_length`: samples added at both ends. */
    function NewSequenceLength(n: int): (r: int)
      ensures r >= n && r - n == startPadding + endPadding
    {
      n + startPadding + endPadding
    }

    /** The pad vector `__call__` builds, as written: `[start, end]` then one 0 per sample beyond the second. */
    function PadVector(lastDim: nat): (v: seq<nat>)
    {
      [startPadding, endPadding] + seq(if lastDim > 2 then lastDim - 2 else 0, _ => 0)
    }

    /** `__call__` as written: pad the trial with the vector built from its sample count. */
    function Call(x: Matrix): (r: Result<Matrix, TransformError>)
    {
      ConstantPad2D(x, PadVector(x.cols), constantValue)
    }

    /** `__call__` as evidently intended: pad only the sample dimension, by `[start, end]`. */
    function IntendedCall(x: Matrix): (r: Matrix)
      ensures r.rows == x.rows && r.cols == NewSequenceLength(x.cols)
      ensures forall i :: 0 <= i < x.rows ==> r.data[i] == PadSequence(x.data[i], startPadding, endPadding, constantValue)
    {
      ConstantPad2D(x, [startPadding, endPadding], constantValue).value
    }
  }

  lemma PadVectorShape(p: TemporalPadding, lastDim: nat)
    ensures var v := p.PadVector(lastDim);
      && |v| == (if lastDim > 2 then lastDim else 2)
      && v[..2] == [p.startPadding, p.endPadding]
      && forall k :: 2 <= k < |v| ==> v[k] == 0
  {
  }

  /** Constant padding keeps the samples in the middle and fills both ends with the constant. */
  lemma PadSequenceContents(p: TemporalPadding, s: seq<real>)
    ensures var r := PadSequence(s, p.startPadding, p.endPadding, p.constantValue);
      && |r| == p.NewSequenceLength(|s|)
      && (forall k :: 0 <= k < p.startPadding ==> r[k] == p.constantValue)
      && (forall k :: |r| - p.endPadding <= k < |r| ==> r[k] == p.constantValue)
      && r[p.startPadding..p.startPadding + |s|] == s
  {
    var r := PadSequence(s, p.startPadding, p.endPadding, p.constantValue);
    assert r == Repeat(p.constantValue, p.startPadding) + s + Repeat(p.constantValue, p.endPadding);
    assert r[p.startPadding..p.startPadding + |s|] == s;
  }

  /** The as-written call succeeds only for trials of at most two samples, or exactly four. */
  lemma CallAcceptedExactly(p: TemporalPadding, x: Matrix)
    ensures p.Call(x).Success? <==> x.cols <= 2 || x.cols == 4
  {
    PadVectorShape(p, x.cols);
  }

  /** Where the as-written call is accepted, it computes the intended padding. */
  lemma {:induction false} CallAgreesWhenAccepted(p: TemporalPadding, x: Matrix)
    requires p.Call(x).Success?
    ensures p.Call(x).value == p.IntendedCall(x)
  {
    var v := p.PadVector(x.cols);
    PadVectorShape(p, x.cols);
    var a := p.Call(x).value;
    var b := p.IntendedCall(x);
    assert a.rows == b.rows && a.cols == b.cols;
    if |v| == 4 {
      assert v[2] == 0 && v[3] == 0;
    }
    assert a.data == b.data;
  }

  /** A one-channel trial of five samples: the as-written pad vector has five entries and is refused. */
  lemma FiveSampleTrialRefused(p: TemporalPadding)
    ensures p.Call(Grid(1, 5, [[0.0, 0.0, 0.0, 0.0, 0.0]])).Failure?
  {
    CallAcceptedExactly(p, Grid(1, 5, [[0.0, 0.0, 0.0, 0.0, 0.0]]));
  }

  // ---------------------------------------------------------------------------
  // MappingDeep1010
  // ---------------------------------------------------------------------------

  /** Σ_{i < k} mapping[i][j] · x[i][t]: entry (j, t) of the mapped trial, over the first k input channels. */
  function ColumnDot(m: Matrix, x: Matrix, j: nat, t: nat, k: nat): real
    requires k <= m.rows == x.rows && j < m.cols && t < x.cols
  {
    if k == 0 then 0.0 else ColumnDot(m, x, j, t, k - 1) + m.data[k - 1][j] * x.data[k - 1][t]
  }

  /** Σ_{i < k} mapping[i][j]. */
  function ColumnSum(m: Matrix, j: nat, k: nat): real
    requires k <= m.rows && j < m.cols
  {
    if k == 0 then 0.0 else ColumnSum(m, j, k - 1) + m.data[k - 1][j]
  }

  /** The rows among the first k whose entry in column j is non-zero, ascending (`mapping[:, j].nonzero()`). */
  function ActiveRows(m: Matrix, j: nat, k: nat): (r: seq<nat>)
    requires k <= m.rows && j < m.cols
    ensures forall p :: 0 <= p < |r| ==> r[p] < k
  {
    if k == 0 then [] else ActiveRows(m, j, k - 1) + (if m.data[k - 1][j] != 0.0 then [k - 1] else [])
  }

  lemma {:induction false} ActiveRowsMembers(m: Matrix, j: nat, k: nat)
    requires k <= m.rows && j < m.cols
    ensures forall i :: i in ActiveRows(m, j, k) <==> 0 <= i < k && m.data[i][j] != 0.0
  {
    if k > 0 {
      ActiveRowsMembers(m, j, k - 1);
      var prev := ActiveRows(m, j, k - 1);
      var r := ActiveRows(m, j, k);
      if m.data[k - 1][j] != 0.0 {
        assert r == prev + [k - 1];
        forall i
          ensures i in r <==> 0 <= i < k && m.data[i][j] != 0.0
        {
          assert i in r <==> i in prev || i == k - 1;
        }
      } else {
        assert r == prev;
      }
    }
  }

  lemma {:induction false} ActiveRowsSorted(m: Matrix, j: nat, k: nat)
    requires k <= m.rows && j < m.cols
    ensures forall p, q :: 0 <= p < q < |ActiveRows(m, j, k)| ==> ActiveRows(m, j, k)[p] < ActiveRows(m, j, k)[q]
  {
    if k > 0 {
      ActiveRowsSorted(m, j, k - 1);
      var prev := ActiveRows(m, j, k - 1);
      var r := ActiveRows(m, j, k);
      if m.data[k - 1][j] != 0.0 {
        assert r == prev + [k - 1];
        forall p, q | 0 <= p < q < |r|
          ensures r[p] < r[q]
        {
          if q < |prev| {
            assert r[p] == prev[p] && r[q] == prev[q];
            assert prev[p] < prev[q];
          } else {
            assert r[p] == prev[p] && r[q] == k - 1;
            assert prev[p] < k - 1;
          }
        }
      } else {
        assert r == prev;
      }
    }
  }

  /** The rows `new_channels` joins for column j: exactly the rows with a non-zero entry there, in increasing order. */
  lemma ActiveRowsExactly(m: Matrix, j: nat, k: nat)
    requires k <= m.rows && j < m.cols
    ensures var r := ActiveRows(m, j, k);
      && (forall i :: i in r <==> 0 <= i < k && m.data[i][j] != 0.0)
      && (forall p, q :: 0 <= p < q < |r| ==> r[p] < r[q])
  {
    ActiveRowsMembers(m, j, k);
    ActiveRowsSorted(m, j, k);
  }

  /** The name of output channel j, as `new_channels` computes it, or the exception it raises. */
  function ColumnName(m: Matrix, j: nat, prior: seq<Channel>): (r: Result<Channel, TransformError>)
    requires j < m.cols
  {
    var active := ActiveRows(m, j, m.rows);
    if |active| == 0 then Success(None)
    else if exists p :: 0 <= p < |active| && active[p] >= |prior| then Failure(IndexError)
    else if exists p :: 0 <= p < |active| && prior[active[p]].None? then Failure(TypeError)
    else Success(Some(Text.Join("-", seq(|active|, p requires 0 <= p < |active| => prior[active[p]].value))))
  }

  /** The channel list of the first k output channels, stopping at the first column that raises. */
  function MappedChannels(m: Matrix, prior: seq<Channel>, k: nat): (r: Result<seq<Channel>, TransformError>)
    requires k <= m.cols
    ensures r.Success? ==> |r.value| == k
  {
    if k == 0 then Success([])
    else match MappedChannels(m, prior, k - 1)
      case Failure(e) => Failure(e)
      case Success(names) =>
        match ColumnName(m, k - 1, prior)
        case Failure(e) => Failure(e)
        case Success(name) => Success(names + [name])
  }

  /** Once a column raises, every longer prefix raises the same exception. */
  lemma {:induction false} MappedChannelsFailureSticks(m: Matrix, prior: seq<Channel>, k: nat, k': nat)
    requires k <= k' <= m.cols && MappedChannels(m, prior, k).Failure?
    ensures MappedChannels(m, prior, k') == MappedChannels(m, prior, k)
    decreases k' - k
  {
    if k < k' {
      MappedChannelsFailureSticks(m, prior, k + 1, k');
    }
  }

  /** The result of the trial mapping: the mapped data, with the column sums when a mask is asked for. */
  datatype MappedTrial = Trial(x: Matrix) | TrialWithMask(x: Matrix, mask: seq<real>)

  /** A MappingDeep1010 transform; its mapping matrix (input channel × Deep1010 channel) is taken as given. */
  datatype MappingDeep1010 = MappingDeep1010(mapping: Matrix, returnMask: bool) {

    /** `__call__`: `(x.T @ mapping).T`, with `mapping.sum(dim=0)` when `return_mask` is set. */
    function Call(x: Matrix): (r: Result<MappedTrial, TransformError>)
      ensures r.Failure? <==> x.rows != mapping.rows
      ensures r.Success? ==> r.value.x.rows == mapping.cols && r.value.x.cols == x.cols
      ensures r.Success? ==> forall j, t :: 0 <= j < mapping.cols && 0 <= t < x.cols ==>
        r.value.x.data[j][t] == ColumnDot(mapping, x, j, t, mapping.rows)
      ensures r.Success? ==> (r.value.TrialWithMask? <==> returnMask)
      ensures r.Success? && returnMask ==>
        (|r.value.mask| == mapping.cols
         && forall j :: 0 <= j < mapping.cols ==> r.value.mask[j] == ColumnSum(mapping, j, mapping.rows))
    {
      if x.rows != mapping.rows then Failure(ShapeMismatch)
      else
        var out: Matrix := Grid(mapping.cols, x.cols,
          seq(mapping.cols, j requires 0 <= j < mapping.cols =>
            seq(x.cols, t requires 0 <= t < x.cols => ColumnDot(mapping, x, j, t, mapping.rows))));
        if returnMask then
          Success(TrialWithMask(out, seq(mapping.cols, j requires 0 <= j < mapping.cols => ColumnSum(mapping, j, mapping.rows))))
        else Success(Trial(out))
    }

    /** `new_channels`: a loop over the mapping's columns appending one name (or None) per column. */
    method NewChannels(prior: seq<Channel>) returns (r: Result<seq<Channel>, TransformError>)
      ensures r == MappedChannels(mapping, prior, mapping.cols)
    {
      var channels: seq<Channel> := [];
      var col := 0;
      while col < mapping.cols
        invariant col <= mapping.cols
        invariant MappedChannels(mapping, prior, col) == Success(channels)
      {
        var name := NameOfColumn(col, prior);
        if name.Failure? {
          MappedChannelsFailureSticks(mapping, prior, col + 1, mapping.cols);
          return Failure(name.error);
        }
        channels := channels + [name.value];
        col := col + 1;
      }
      r := Success(channels);
    }

    /** One iteration of `new_channels`: the names of the active rows, then their join. */
    method NameOfColumn(col: nat, prior: seq<Channel>) returns (r: Result<Channel, TransformError>)
      requires col < mapping.cols
      ensures r == ColumnName(mapping, col, prior)
    {
      var active := ActiveRows(mapping, col, mapping.rows);
      if |active| == 0 {
        return Success(None);
      }
      var names: seq<Channel> := [];
      var p := 0;
      while p < |active|
        invariant p <= |active|
        invariant forall q :: 0 <= q < p ==> active[q] < |prior|
        invariant names == seq(p, q requires 0 <= q < p => prior[active[q]])
      {
        if active[p] >= |prior| {
          return Failure(IndexError);
        }
        names := names + [prior[active[p]]];
        p := p + 1;
      }
      var parts: seq<string> := [];
      p := 0;
      while p < |names|
        invariant p <= |names|
        invariant forall q :: 0 <= q < p ==> names[q].Some?
        invariant parts == seq(p, q requires 0 <= q < p => names[q].value)
      {
        if names[p].None? {
          return Failure(TypeError);
        }
        parts := parts + [names[p].value];
        p := p + 1;
      }
      assert forall q :: 0 <= q < |active| ==> active[q] < |prior| && prior[active[q]] == names[q] && names[q].Some?;
      assert parts == seq(|active|, q requires 0 <= q < |active| => prior[active[q]].value);
      r := Success(Some(Text.Join("-", parts)));
    }
  }

  lemma {:induction false} ActiveRowsSingle(m: Matrix, j: nat, k: nat, i: nat)
    requires k <= m.rows && j < m.cols && i < m.rows
    requires m.data[i][j] != 0.0
    requires forall r :: 0 <= r < m.rows && r != i ==> m.data[r][j] == 0.0
    ensures ActiveRows(m, j, k) == if i < k then [i] else []
  {
    if k > 0 {
      ActiveRowsSingle(m, j, k - 1, i);
    }
  }

  /** A column contributes a name exactly when it has a non-zero entry, and that name joins its rows' names in row order. */
  lemma ColumnNameContents(m: Matrix, j: nat, prior: seq<Channel>)
    requires j < m.cols
    ensures ColumnName(m, j, prior) == Success(None) <==> forall i :: 0 <= i < m.rows ==> m.data[i][j] == 0.0
    ensures ColumnName(m, j, prior).Success? <==> forall i :: 0 <= i < m.rows && m.data[i][j] != 0.0 ==> i < |prior| && prior[i].Some?
    ensures ColumnName(m, j, prior).Success? && ColumnName(m, j, prior).value.Some? ==>
      var active := ActiveRows(m, j, m.rows);
      ColumnName(m, j, prior).value.value == Text.Join("-", seq(|active|, p requires 0 <= p < |active| => prior[active[p]].value))
  {
    ActiveRowsExactly(m, j, m.rows);
    var active := ActiveRows(m, j, m.rows);
    if |active| == 0 {
      forall i | 0 <= i < m.rows
        ensures m.data[i][j] == 0.0
      {
        assert i !in active;
      }
    } else {
      assert active[0] in active;
      if ColumnName(m, j, prior).Success? {
        forall i | 0 <= i < m.rows && m.data[i][j] != 0.0
          ensures i < |prior| && prior[i].Some?
        {
          assert i in active;
          var p :| 0 <= p < |active| && active[p] == i;
        }
      } else {
        var p :| 0 <= p < |active| && (active[p] >= |prior| || prior[active[p]].None?);
        assert active[p] in active;
      }
    }
  }

  /** A column with a single non-zero row is named after that row's channel, unchanged. */
  lemma SingleActiveRowKeepsName(m: Matrix, j: nat, prior: seq<Channel>, i: nat)
    requires j < m.cols && i < m.rows && i < |prior| && prior[i].Some?
    requires m.data[i][j] != 0.0
    requires forall k :: 0 <= k < m.rows && k != i ==> m.data[k][j] == 0.0
    ensures ColumnName(m, j, prior) == Success(prior[i])
  {
    ActiveRowsSingle(m, j, m.rows, i);
    Text.JoinSingle("-", prior[i].value);
  }

  /** `new_channels` yields one entry per mapping column, each entry the name of that column. */
  lemma {:induction false} MappedChannelsShape(m: Matrix, prior: seq<Channel>, k: nat)
    requires k <= m.cols
    ensures MappedChannels(m, prior, k).Success? <==> forall j :: 0 <= j < k ==> ColumnName(m, j, prior).Success?
    ensures MappedChannels(m, prior, k).Success? ==>
      var names := MappedChannels(m, prior, k).value;
      |names| == k && forall j :: 0 <= j < k ==> Success(names[j]) == ColumnName(m, j, prior)
  {
    if k > 0 {
      MappedChannelsShape(m, prior, k - 1);
    }
  }

  /**
   * `new_channels` succeeds exactly when every input channel that feeds some
   * output channel exists and has a name; an entry is None exactly when its
   * column of the mapping is all zeros.
   */
  lemma MappedChannelsDefined(m: Matrix, prior: seq<Channel>)
    ensures MappedChannels(m, prior, m.cols).Success? <==>
      forall i, j :: 0 <= i < m.rows && 0 <= j < m.cols && m.data[i][j] != 0.0 ==> i < |prior| && prior[i].Some?
    ensures MappedChannels(m, prior, m.cols).Success? ==>
      var names := MappedChannels(m, prior, m.cols).value;
      |names| == m.cols && forall j :: 0 <= j < m.cols ==> (names[j].None? <==> forall i :: 0 <= i < m.rows ==> m.data[i][j] == 0.0)
  {
    MappedChannelsShape(m, prior, m.cols);
    forall j | 0 <= j < m.cols {
      ColumnNameContents(m, j, prior);
    }
    if MappedChannels(m, prior, m.cols).Success? {
      forall i, j | 0 <= i < m.rows && 0 <= j < m.cols && m.data[i][j] != 0.0
        ensures i < |prior| && prior[i].Some?
      {
        assert ColumnName(m, j, prior).Success?;
      }
    } else {
      var j :| 0 <= j < m.cols && ColumnName(m, j, prior).Failure?;
      var i :| 0 <= i < m.rows && m.data[i][j] != 0.0 && !(i < |prior| && prior[i].Some?);
    }
  }

  /** A non-negative column sums to zero exactly when all its entries are zero. */
  lemma {:induction false} ColumnSumZero(m: Matrix, j: nat, k: nat)
    requires k <= m.rows && j < m.cols
    requires forall i :: 0 <= i < k ==> m.data[i][j] >= 0.0
    ensures ColumnSum(m, j, k) >= 0.0
    ensures ColumnSum(m, j, k) == 0.0 <==> forall i :: 0 <= i < k ==> m.data[i][j] == 0.0
  {
    if k > 0 {
      ColumnSumZero(m, j, k - 1);
    }
  }

  /** With a non-negative mapping, the mask entry of an output channel is zero exactly when `new_channels` names it None. */
  lemma MaskMarksUnnamedChannels(md: MappingDeep1010, x: Matrix, prior: seq<Channel>, j: nat)
    requires md.returnMask && x.rows == md.mapping.rows && j < md.mapping.cols
    requires forall i, c :: 0 <= i < md.mapping.rows && 0 <= c < md.mapping.cols ==> md.mapping.data[i][c] >= 0.0
    requires MappedChannels(md.mapping, prior, md.mapping.cols).Success?
    ensures md.Call(x).value.mask[j] == 0.0 <==> MappedChannels(md.mapping, prior, md.mapping.cols).value[j].None?
  {
    ColumnSumZero(md.mapping, j, md.mapping.rows);
    MappedChannelsDefined(md.mapping, prior);
  }

  /** Over the first k rows, a column that is 1 at row i and 0 elsewhere picks out x[i][t]. */
  lemma {:induction false} ColumnDotUnit(m: Matrix, x: Matrix, j: nat, t: nat, k: nat, i: nat)
    requires k <= m.rows == x.rows && j < m.cols && t < x.cols && i < m.rows
    requires m.data[i][j] == 1.0
    requires forall r :: 0 <= r < m.rows && r != i ==> m.data[r][j] == 0.0
    ensures ColumnDot(m, x, j, t, k) == if i < k then x.data[i][t] else 0.0
  {
    if k > 0 {
      ColumnDotUnit(m, x, j, t, k - 1, i);
    }
  }

  /** An output channel whose mapping column is the unit vector of input channel i carries that channel's samples. */
  lemma UnitColumnCopiesChannel(md: MappingDeep1010, x: Matrix, j: nat, i: nat)
    requires x.rows == md.mapping.rows && j < md.mapping.cols && i < md.mapping.rows
    requires md.mapping.data[i][j] == 1.0
    requires forall r :: 0 <= r < md.mapping.rows && r != i ==> md.mapping.data[r][j] == 0.0
    ensures md.Call(x).value.x.data[j] == x.data[i]
  {
    var out := md.Call(x).value.x;
    forall t | 0 <= t < x.cols
      ensures out.data[j][t] == x.data[i][t]
    {
      ColumnDotUnit(md.mapping, x, j, t, md.mapping.rows, i);
    }
  }

  // ---------------------------------------------------------------------------
  // The metadata hooks every transform answers
  // ---------------------------------------------------------------------------

  /** The transforms of the module; ZScore's own call is floating-point arithmetic and is not modelled. */
  datatype Transform = ZScoreTransform | PaddingTransform(padding: TemporalPadding) | MappingTransform(mapper: MappingDeep1010) {

    /** `new_channels`: the channel list after this transform; only MappingDeep1010 overrides the default. */
    function NewChannels(prior: seq<Channel>): (r: Result<seq<Channel>, TransformError>)
      ensures !MappingTransform? ==> r == Success(prior)
    {
      if MappingTransform? then MappedChannels(mapper.mapping, prior, mapper.mapping.cols) else Success(prior)
    }

    /** `new_sfreq`: no transform here overrides the default. */
    function NewSfreq(prior: real): (r: real)
      ensures r == prior
    {
      prior
    }

    /** `new_sequence_length`: only TemporalPadding overrides the default. */
    function NewSequenceLength(n: int): (r: int)
      ensures !PaddingTransform? ==> r == n
      ensures PaddingTransform? ==> r == n + padding.startPadding + padding.endPadding
    {
      if PaddingTransform? then padding.NewSequenceLength(n) else n
    }
  }

  /** ZScore keeps the default hooks: channels, sampling rate and length come back unchanged. */
  lemma ZScoreKeepsMetadata(prior: seq<Channel>, sfreq: real, n: int)
    ensures ZScoreTransform.NewChannels(prior) == Success(prior)
    ensures ZScoreTransform.NewSfreq(sfreq) == sfreq
    ensures ZScoreTransform.NewSequenceLength(n) == n
  {
  }

  /** The hooks of TemporalPadding describe the trial its (intended) call returns. */
  lemma PaddingHooksDescribeCall(p: TemporalPadding, x: Matrix, prior: seq<Channel>)
    requires |prior| == x.rows
    ensures var t := PaddingTransform(p);
      && t.NewChannels(prior) == Success(prior)
      && p.IntendedCall(x).rows == |prior|
      && p.IntendedCall(x).cols == t.NewSequenceLength(x.cols)
  {
  }

  /** The hooks of MappingDeep1010 describe the trial its call returns: one row per named channel, samples unchanged. */
  lemma MappingHooksDescribeCall(md: MappingDeep1010, x: Matrix, prior: seq<Channel>)
    requires md.Call(x).Success? && MappingTransform(md).NewChannels(prior).Success?
    ensures md.Call(x).value.x.rows == |MappingTransform(md).NewChannels(prior).value|
    ensures md.Call(x).value.x.cols == MappingTransform(md).NewSequenceLength(x.cols)
  {
    MappedChannelsShape(md.mapping, prior, md.mapping.cols);
  }
}
