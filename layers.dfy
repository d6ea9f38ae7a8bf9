/**
 * The shape logic of the custom Keras layers in layers.py: the output
 * signatures of ExpandLayer and SqueezeLayer, their configuration, and the
 * settings and attention-weight shapes of AttentionLSTMIn.
 */
module Layers {
  import opened Wrappers

  /** One dimension of a signature: a known size, or None. */
  datatype Dim = Known(size: nat) | Unknown

  type Signature = seq<Dim>

  datatype LayerError =
    | ValueError       // SqueezeLayer: the dimension at the axis is not 1
    | IndexError       // SqueezeLayer: the axis lies outside the signature
    | TypeError        // AttentionLSTMIn: a style outside ATT_STYLES
    | AssertionError   // AttentionLSTMIn.build: an input of rank 2 or less
    | InvalidArgument  // tf.expand_dims: an axis outside [-(rank+1), rank]

  /** The default `axis` of ExpandLayer and SqueezeLayer. */
  const DefaultAxis: int := -1

  /** The axis after `if ax < 0: ax = len(signature) + ax`; it may still be negative. */
  function NormaliseAxis(axis: int, n: nat): (ax: int)
    ensures axis >= 0 ==> ax == axis
    ensures axis < 0 ==> ax == n + axis
  {
    if axis < 0 then n + axis else axis
  }

  /** The position at which Python's `list.insert(i, x)` places x in a list of length n. */
  function InsertPosition(i: int, n: nat): (p: nat)
    ensures p <= n
    ensures 0 <= i <= n ==> p == i
    ensures i > n ==> p == n
    ensures i < 0 ==> p == if n + i < 0 then 0 else n + i
  {
    if i < 0 then (if n + i < 0 then 0 else n + i) else if i > n then n else i
  }

  /** ExpandLayer.compute_output_signature, as written: insert a 1 at index `ax + 1`. */
  function ExpandSignature(axis: int, s: Signature): (r: Signature)
    ensures |r| == |s| + 1
    ensures var p := InsertPosition(NormaliseAxis(axis, |s|) + 1, |s|);
      r[..p] == s[..p] && r[p] == Known(1) && r[p + 1..] == s[p..]
  {
    var p := InsertPosition(NormaliseAxis(axis, |s|) + 1, |s|);
    s[..p] + [Known(1)] + s[p..]
  }

  /** SqueezeLayer.compute_output_signature: pop the entry at the normalised axis when it is 1, else raise. */
  function SqueezeSignature(axis: int, s: Signature): (r: Result<Signature, LayerError>)
  {
    var ax := NormaliseAxis(axis, |s|);
    if ax >= |s| || ax < -|s| then Failure(IndexError)
    else
      var i := if ax < 0 then ax + |s| else ax;
      if s[i] == Known(1) then Success(s[..i] + s[i + 1..]) else Failure(ValueError)
  }

  /** For a normalised axis with `0 <= ax + 1 <= len(s)`, expanding inserts the 1 right after index `ax`. */
  lemma ExpandInsertsAfterAxis(axis: int, s: Signature)
    requires 0 <= NormaliseAxis(axis, |s|) + 1 <= |s|
    ensures var ax := NormaliseAxis(axis, |s|);
      ExpandSignature(axis, s) == s[..ax + 1] + [Known(1)] + s[ax + 1..]
  {
  }

  /**
   * Squeezing pops the entry at the normalised axis, read as a Python index
   * (one that is still negative counts from the end): IndexError exactly when
   * that index lies outside the signature, the signature without that entry
   * exactly when it is 1, and ValueError exactly when it is not.
   */
  lemma SqueezeRemovesOne(axis: int, s: Signature)
    ensures var ax := NormaliseAxis(axis, |s|);
      var i := if ax < 0 then ax + |s| else ax;
      && (SqueezeSignature(axis, s) == Failure(IndexError) <==> !(0 <= i < |s|))
      && (0 <= i < |s| ==>
            (SqueezeSignature(axis, s) == Success(s[..i] + s[i + 1..]) <==> s[i] == Known(1))
            && (SqueezeSignature(axis, s) == Failure(ValueError) <==> s[i] != Known(1)))
  {
  }

  /** With the default axis, or any axis in [-(len(s) + 1), -1], squeezing undoes expanding. */
  lemma ExpandThenSqueeze(axis: int, s: Signature)
    requires -|s| - 1 <= axis <= -1
    ensures SqueezeSignature(axis, ExpandSignature(axis, s)) == Success(s)
  {
    var t := ExpandSignature(axis, s);
    var p := InsertPosition(NormaliseAxis(axis, |s|) + 1, |s|);
    assert p == |s| + axis + 1;
    assert t == s[..p] + [Known(1)] + s[p..];
    assert t[..p] + t[p + 1..] == s;
  }

  lemma DefaultAxisRoundTrip(s: Signature)
    ensures ExpandSignature(DefaultAxis, s) == s + [Known(1)]
    ensures SqueezeSignature(DefaultAxis, ExpandSignature(DefaultAxis, s)) == Success(s)
  {
    ExpandThenSqueeze(DefaultAxis, s);
  }

  /**
   * The shape tf.expand_dims gives in `call`: the new axis of size 1 stands at
   * index `axis` of the result (counted from the end when negative).
   */
  function ExpandDimsShape(axis: int, s: Signature): (r: Result<Signature, LayerError>)
    ensures r.Success? <==> -|s| - 1 <= axis <= |s|
    ensures r.Success? ==> |r.value| == |s| + 1
    ensures r.Success? ==> r.value[if axis >= 0 then axis else |s| + 1 + axis] == Known(1)
  {
    if axis < -|s| - 1 || axis > |s| then Failure(InvalidArgument)
    else
      var p := if axis >= 0 then axis else |s| + 1 + axis;
      Success(s[..p] + [Known(1)] + s[p..])
  }

  /** For negative axes the as-written signature is the shape `call` produces. */
  lemma ExpandSignatureMatchesCallForNegativeAxes(axis: int, s: Signature)
    requires -|s| - 1 <= axis < 0
    ensures ExpandDimsShape(axis, s) == Success(ExpandSignature(axis, s))
  {
  }

  /** For axis 0 it is not: (2, 3) is given the signature (2, 1, 3), while `call` yields (1, 2, 3). */
  lemma ExpandSignatureMisplacesAxisZero()
    ensures ExpandSignature(0, [Known(2), Known(3)]) == [Known(2), Known(1), Known(3)]
    ensures ExpandDimsShape(0, [Known(2), Known(3)]) == Success([Known(1), Known(2), Known(3)])
  {
    assert InsertPosition(NormaliseAxis(0, 2) + 1, 2) == 1;
    var s: Signature := [Known(2), Known(3)];
    assert s[..1] + [Known(1)] + s[1..] == [Known(2), Known(1), Known(3)];
    assert s[..0] + [Known(1)] + s[0..] == [Known(1), Known(2), Known(3)];
  }

  /** With the shape `call` produces, squeezing at the same axis undoes expanding for every valid axis. */
  lemma ExpandDimsThenSqueeze(axis: int, s: Signature)
    requires -|s| - 1 <= axis <= |s|
    ensures SqueezeSignature(axis, ExpandDimsShape(axis, s).value) == Success(s)
  {
    var t := ExpandDimsShape(axis, s).value;
    var p := if axis >= 0 then axis else |s| + 1 + axis;
    assert t == s[..p] + [Known(1)] + s[p..];
    assert t[..p] + t[p + 1..] == s;
  }

  /** ExpandLayer and SqueezeLayer: both keep only their axis. */
  datatype AxisLayer = ExpandLayer(axis: int) | SqueezeLayer(axis: int) {

    /** `compute_output_signature`: SqueezeLayer overrides ExpandLayer's. */
    function ComputeOutputSignature(s: Signature): (r: Result<Signature, LayerError>)
      ensures ExpandLayer? ==> r.Success? && |r.value| == |s| + 1
      ensures SqueezeLayer? && r.Success? ==> |r.value| + 1 == |s|
    {
      if ExpandLayer? then Success(ExpandSignature(axis, s)) else SqueezeSignature(axis, s)
    }

    /** `get_config`: a dictionary holding the axis alone (SqueezeLayer inherits it). */
    function GetConfig(): (config: map<string, int>)
      ensures config.Keys == {"axis"} && config["axis"] == axis
    {
      map["axis" := axis]
    }
  }

  /** Rebuilding a layer of the same class from its configuration gives the same layer. */
  lemma ConfigRoundTrip(layer: AxisLayer)
    ensures layer.ExpandLayer? ==> ExpandLayer(layer.GetConfig()["axis"]) == layer
    ensures layer.SqueezeLayer? ==> SqueezeLayer(layer.GetConfig()["axis"]) == layer
  {
  }

  // ---------------------------------------------------------------------------
  // AttentionLSTMIn
  // ---------------------------------------------------------------------------

  /** The `alignment_units` argument: a list or tuple, a single number, or None. */
  datatype AlignmentUnitsArg = UnitsList(values: seq<int>) | UnitsScalar(value: int) | UnitsNone

  datatype Style = Local | Global

  /** `ATT_STYLES`. */
  const AttentionStyles: seq<string> := ["local", "global"]

  /** The fields `__init__` sets, and the settings it passes on to the LSTM (`units`, `implementation`, `use_bias`). */
  datatype AttentionSettings = AttentionSettings(
    units: int,
    alignmentDepth: nat,
    alignmentUnits: seq<int>,
    style: Style,
    implementation: int,
    useBias: bool)

  /** The normalisation `AttentionLSTMIn.__init__` performs, or the TypeError it raises for an unknown style. */
  function InitSettings(units: int, alignmentDepth: int, style: string, alignmentUnits: AlignmentUnitsArg,
                        implementation: int, useBias: bool): (r: Result<AttentionSettings, LayerError>)
    ensures r.Success? <==> style in AttentionStyles
    ensures r.Failure? ==> r.error == TypeError
    ensures r.Success? ==> r.value.alignmentDepth == |r.value.alignmentUnits|
    ensures r.Success? && alignmentUnits.UnitsList? ==> r.value.alignmentUnits == alignmentUnits.values
    ensures r.Success? && !alignmentUnits.UnitsList? ==>
      && r.value.alignmentDepth == (if alignmentDepth > 0 then alignmentDepth else 0)
      && forall i :: 0 <= i < r.value.alignmentDepth ==>
           r.value.alignmentUnits[i] == (if alignmentUnits.UnitsScalar? && alignmentUnits.value != 0 then alignmentUnits.value else units)
    ensures r.Success? ==> r.value.implementation == (if implementation > 0 then implementation else 2)
    ensures r.Success? ==> r.value.implementation > 0
    ensures r.Success? ==> r.value.style == (if style == "local" then Local else Global)
    ensures r.Success? ==> r.value.units == units && r.value.useBias == useBias
  {
    var impl := if implementation > 0 then implementation else 2;
    var depth := if alignmentDepth > 0 then alignmentDepth else 0;
    var chosen := if alignmentUnits.UnitsScalar? && alignmentUnits.value != 0 then alignmentUnits.value else units;
    var layerUnits := if alignmentUnits.UnitsList? then alignmentUnits.values else seq(depth, _ => chosen);
    if style == AttentionStyles[0] then
      Success(AttentionSettings(units, |layerUnits|, layerUnits, Local, impl, useBias))
    else if style == AttentionStyles[1] then
      Success(AttentionSettings(units, |layerUnits|, layerUnits, Global, impl, useBias))
    else Failure(TypeError)
  }

  /** The attention weight shapes `build` creates. */
  datatype AttentionWeights = AttentionWeights(
    samples: int,
    channels: int,
    kernels: seq<(int, int)>,
    bias: Option<seq<int>>)

  /** The chain of unit counts: attention input width, the alignment layers, then the attended dimension. */
  function UnitChain(st: AttentionSettings, inputShape: seq<int>): (u: seq<int>)
    requires |st.alignmentUnits| == st.alignmentDepth && |inputShape| > 2
    ensures |u| == st.alignmentDepth + 2
  {
    if st.style == Local then [st.units + inputShape[|inputShape| - 1]] + st.alignmentUnits + [inputShape[2]]
    else [st.units + inputShape[1]] + st.alignmentUnits + [inputShape[1]]
  }

  /** `build`'s shape bookkeeping, or the AssertionError for an input of rank 2 or less. */
  function BuildWeights(st: AttentionSettings, inputShape: seq<int>): (r: Result<AttentionWeights, LayerError>)
    requires |st.alignmentUnits| == st.alignmentDepth
    ensures r.Failure? <==> |inputShape| <= 2
  {
    if |inputShape| <= 2 then Failure(AssertionError)
    else
      var u := UnitChain(st, inputShape);
      Success(AttentionWeights(
        inputShape[1], inputShape[2],
        seq(|u| - 1, i requires 0 <= i < |u| - 1 => (u[i], u[i + 1])),
        if st.useBias then Some(u[1..]) else None))
  }

  /**
   * There are depth + 1 attention kernels; the first reads the LSTM units plus
   * the attended width, consecutive kernels chain, the middle widths are the
   * alignment units, and the last writes one weight per channel (local) or per
   * sample (global). Each bias has its kernel's output width.
   */
  lemma KernelsChain(st: AttentionSettings, inputShape: seq<int>)
    requires |st.alignmentUnits| == st.alignmentDepth && |inputShape| > 2
    ensures var w := BuildWeights(st, inputShape).value;
      && w.samples == inputShape[1] && w.channels == inputShape[2]
      && |w.kernels| == st.alignmentDepth + 1
      && w.kernels[0].0 == st.units + (if st.style == Local then inputShape[|inputShape| - 1] else inputShape[1])
      && (forall i :: 0 <= i < st.alignmentDepth ==> w.kernels[i].1 == st.alignmentUnits[i] == w.kernels[i + 1].0)
      && w.kernels[st.alignmentDepth].1 == (if st.style == Local then w.channels else w.samples)
      && (w.bias.Some? <==> st.useBias)
      && (w.bias.Some? ==> |w.bias.value| == |w.kernels| && forall i :: 0 <= i < |w.kernels| ==> w.bias.value[i] == w.kernels[i].1)
  {
    var u := UnitChain(st, inputShape);
    var w := BuildWeights(st, inputShape).value;
    var d := st.alignmentDepth;
    assert |w.kernels| == d + 1;
    assert forall i :: 0 <= i <= d ==> w.kernels[i] == (u[i], u[i + 1]);
    assert u[0] == st.units + (if st.style == Local then inputShape[|inputShape| - 1] else inputShape[1]);
    assert forall i :: 0 <= i < d ==> u[i + 1] == st.alignmentUnits[i];
    assert u[d + 1] == (if st.style == Local then inputShape[2] else inputShape[1]);
  }

  /** An AttentionLSTMIn layer: its normalised settings, and the attention weights once built. */
  class AttentionLstmIn {
    const settings: AttentionSettings
    var built: bool
    var samples: int
    var channels: int
    var attentionKernels: seq<(int, int)>
    var attentionBias: Option<seq<int>>

    ghost predicate Valid()
      reads this
    {
      |settings.alignmentUnits| == settings.alignmentDepth
    }

    constructor (settings: AttentionSettings)
      requires |settings.alignmentUnits| == settings.alignmentDepth
      ensures Valid() && this.settings == settings && !built
    {
      this.settings := settings;
      built := false;
      samples, channels := 0, 0;
      attentionKernels, attentionBias := [], None;
    }

    /** `build`: record samples and channels and create the attention weights, or fail the rank assertion with nothing changed. */
    method Build(inputShape: seq<int>) returns (r: Result<AttentionWeights, LayerError>)
      requires Valid()
      modifies this
      ensures Valid()
      ensures r == BuildWeights(settings, inputShape)
      ensures r.Failure? ==> unchanged(this)
      ensures r.Success? ==>
        (built && samples == r.value.samples && channels == r.value.channels
         && attentionKernels == r.value.kernels && attentionBias == r.value.bias)
    {
      r := BuildWeights(settings, inputShape);
      if r.Success? {
        samples, channels := r.value.samples, r.value.channels;
        attentionKernels, attentionBias := r.value.kernels, r.value.bias;
        built := true;
      }
    }
  }

  /** `AttentionLSTMIn(...)`: a fresh, unbuilt layer with the normalised settings, or the TypeError. */
  method NewAttentionLstmIn(units: int, alignmentDepth: int, style: string, alignmentUnits: AlignmentUnitsArg,
                            implementation: int, useBias: bool) returns (r: Result<AttentionLstmIn, LayerError>)
    ensures var st := InitSettings(units, alignmentDepth, style, alignmentUnits, implementation, useBias);
      && (r.Success? <==> st.Success?)
      && (r.Failure? ==> r.error == st.error)
      && (r.Success? ==> fresh(r.value) && r.value.Valid() && r.value.settings == st.value && !r.value.built)
  {
    var st := InitSettings(units, alignmentDepth, style, alignmentUnits, implementation, useBias);
    if st.Failure? {
      return Failure(st.error);
    }
    var layer := new AttentionLstmIn(st.value);
    r := Success(layer);
  }
}
