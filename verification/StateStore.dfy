/** Recurrent state slots: sliced storage, a pool of active and snapshot slots, and a snapshot cache. */
module StateStore {
  type Cell = int
  type Layer = seq<Cell>

  /** A layer holds the slices of all states side by side. */
  predicate Divides(n: nat, layer: Layer) {
    0 < n && |layer| == n * (|layer| / n)
  }

  function Width(n: nat, layer: Layer): nat
    requires 0 < n
  {
    |layer| / n
  }

  lemma SliceFits(n: nat, layer: Layer, s: nat)
    requires Divides(n, layer) && s < n
    ensures s * Width(n, layer) + Width(n, layer) <= |layer|
  {
    var w := Width(n, layer);
    assert |layer| == n * w;
    assert (s + 1) * w <= n * w;
  }

  lemma SlicesApart(w: nat, s: nat, t: nat)
    requires s < t
    ensures s * w + w <= t * w
  {
    assert (s + 1) * w <= t * w;
  }

  function Slice(n: nat, layer: Layer, s: nat): Layer
    requires Divides(n, layer) && s < n
  {
    SliceFits(n, layer, s);
    layer[s * Width(n, layer)..s * Width(n, layer) + Width(n, layer)]
  }

  /** The layer with one slice overwritten. */
  function Overwrite(n: nat, layer: Layer, s: nat, data: Layer): Layer
    requires Divides(n, layer) && s < n && |data| == Width(n, layer)
  {
    SliceFits(n, layer, s);
    layer[..s * Width(n, layer)] + data + layer[s * Width(n, layer) + Width(n, layer)..]
  }

  lemma OverwriteOk(n: nat, layer: Layer, s: nat, data: Layer, t: nat)
    requires Divides(n, layer) && s < n && t < n && |data| == Width(n, layer)
    ensures |Overwrite(n, layer, s, data)| == |layer| && Divides(n, Overwrite(n, layer, s, data))
    ensures Slice(n, Overwrite(n, layer, s, data), t) == if t == s then data else Slice(n, layer, t)
  {
    var w := Width(n, layer);
    SliceFits(n, layer, s);
    SliceFits(n, layer, t);
    var r := Overwrite(n, layer, s, data);
    assert |r| == |layer|;
    if t < s { SlicesApart(w, t, s); } else if s < t { SlicesApart(w, s, t); }
  }

  function Zeros(k: nat): Layer {
    seq(k, _ => 0)
  }

  /** What a state holds in each layer. */
  function Held(n: nat, layers: seq<Layer>, s: nat): seq<Layer>
    requires s < n && forall i | 0 <= i < |layers| :: Divides(n, layers[i])
  {
    seq(|layers|, i requires 0 <= i < |layers| => Slice(n, layers[i], s))
  }

  predicate Shaped(n: nat, layers: seq<Layer>) {
    forall i | 0 <= i < |layers| :: Divides(n, layers[i])
  }

  /** Layers 0 to k have the new slice, the others the old one; no other state changed. */
  ghost predicate Partly(n: nat, before: seq<Layer>, after: seq<Layer>, s: nat, data: seq<Layer>, k: nat) {
    && |after| == |before| == |data| && s < n && k <= |before| && Shaped(n, before) && Shaped(n, after)
    && (forall i | 0 <= i < |before| :: |after[i]| == |before[i]|)
    && (forall i, t: nat | 0 <= i < |before| && t < n ::
          Slice(n, after[i], t) == if t == s && i < k then data[i] else Slice(n, before[i], t))
  }

  lemma PartlyNext(n: nat, before: seq<Layer>, after: seq<Layer>, s: nat, data: seq<Layer>, k: nat)
    requires Partly(n, before, after, s, data, k) && k < |before| && |data[k]| == Width(n, before[k])
    ensures |data[k]| == Width(n, after[k])
    ensures Partly(n, before, after[k := Overwrite(n, after[k], s, data[k])], s, data, k + 1)
  {
    hide Slice, Overwrite;
    var after' := after[k := Overwrite(n, after[k], s, data[k])];
    forall t: nat | t < n
      ensures |Overwrite(n, after[k], s, data[k])| == |after[k]| && Divides(n, Overwrite(n, after[k], s, data[k]))
      ensures Slice(n, Overwrite(n, after[k], s, data[k]), t) == if t == s then data[k] else Slice(n, after[k], t)
    {
      OverwriteOk(n, after[k], s, data[k], t);
    }
    OverwriteOk(n, after[k], s, data[k], s);
    forall i, t: nat | 0 <= i < |before| && t < n
      ensures Slice(n, after'[i], t) == if t == s && i < k + 1 then data[i] else Slice(n, before[i], t)
    {
      assert Slice(n, after[i], t) == if t == s && i < k then data[i] else Slice(n, before[i], t);
    }
  }

  /** What is known once all layers, or only some, were written. */
  lemma PartlyHeld(n: nat, before: seq<Layer>, after: seq<Layer>, s: nat, data: seq<Layer>, k: nat)
    requires Partly(n, before, after, s, data, k)
    ensures k == |before| ==> Held(n, after, s) == data
    ensures forall t: nat | t < n && t != s :: Held(n, after, t) == Held(n, before, t)
  {
    hide Slice;
    if k == |before| {
      forall i | 0 <= i < |before| ensures Slice(n, after[i], s) == data[i] {}
    }
    forall t: nat | t < n && t != s ensures Held(n, after, t) == Held(n, before, t) {
      forall i | 0 <= i < |before| ensures Slice(n, after[i], t) == Slice(n, before[i], t) {}
    }
  }

  // ---------------------------------------------------------------- storage

  /** Device buffers, one per layer. The `budget` its methods take says how many device operations succeed
      before one fails. */
  class StateStorage {
    const numStates: nat
    var layers: seq<Layer>

    ghost predicate Valid()
      reads this
    {
      0 < numStates && Shaped(numStates, layers)
    }

    function StateAt(s: nat): seq<Layer>
      requires Valid() && s < numStates
      reads this
    {
      Held(numStates, layers, s)
    }

    constructor (n: nat, widths: seq<nat>)
      requires 0 < n
      ensures Valid() && numStates == n && |layers| == |widths|
    {
      numStates := n;
      layers := seq(|widths|, i requires 0 <= i < |widths| => Zeros(n * widths[i]));
      new;
      forall i | 0 <= i < |layers| ensures Divides(numStates, layers[i]) {
        ZeroLayer(n, widths[i]);
      }
    }

    /** Writes one slice of every layer, stopping at the first device failure. */
    method Write(s: nat, data: seq<Layer>, budget: nat) returns (ok: bool)
      requires Valid() && s < numStates && |data| == |layers|
      requires forall i | 0 <= i < |layers| :: |data[i]| == Width(numStates, layers[i])
      modifies this
      ensures Valid() && |layers| == old(|layers|)
      ensures forall i | 0 <= i < |layers| :: |layers[i]| == |old(layers)[i]|
      ensures ok <==> |data| <= budget
      ensures ok ==> StateAt(s) == data
      ensures forall t: nat | t < numStates && t != s :: StateAt(t) == old(Held(numStates, layers, t))
    {
      ghost var before := layers;
      var i := 0;
      ok := true;
      hide Slice, Overwrite, Width;
      while i < |data|
        invariant 0 <= i <= |data| && i <= budget && numStates > 0
        invariant Partly(numStates, before, layers, s, data, i)
      {
        if i == budget {
          ok := false;
          break;
        }
        PartlyNext(numStates, before, layers, s, data, i);
        layers := layers[i := Overwrite(numStates, layers[i], s, data[i])];
        i := i + 1;
      }
      PartlyHeld(numStates, before, layers, s, data, i);
    }

    /** zero_state. */
    method ZeroState(s: int, budget: nat) returns (ok: bool)
      requires Valid()
      modifies this
      ensures Valid() && |layers| == old(|layers|)
      ensures ok <==> 0 <= s < numStates && |layers| <= budget
      ensures forall i | 0 <= i < |layers| :: |layers[i]| == |old(layers)[i]|
      ensures ok ==> forall i | 0 <= i < |layers| :: StateAt(s)[i] == Zeros(Width(numStates, layers[i]))
      ensures forall t: nat | t < numStates && t != s :: StateAt(t) == old(Held(numStates, layers, t))
    {
      if s < 0 || s >= numStates { return false; }
      var ls := layers;
      var data := seq(|ls|, i requires 0 <= i < |ls| => Zeros(Width(numStates, ls[i])));
      ok := Write(s, data, budget);
    }

    /** copy_state. */
    method CopyState(src: int, dst: int, budget: nat) returns (ok: bool)
      requires Valid()
      modifies this
      ensures Valid() && |layers| == old(|layers|)
      ensures forall i | 0 <= i < |layers| :: |layers[i]| == |old(layers)[i]|
      ensures ok <==> 0 <= src < numStates && 0 <= dst < numStates && |layers| <= budget
      ensures ok ==> StateAt(dst) == old(Held(numStates, layers, src))
      ensures forall t: nat | t < numStates && t != dst :: StateAt(t) == old(Held(numStates, layers, t))
      ensures !(0 <= src < numStates && 0 <= dst < numStates) ==> layers == old(layers)
    {
      if src < 0 || src >= numStates || dst < 0 || dst >= numStates { return false; }
      var data := StateAt(src);
      forall i | 0 <= i < |layers| ensures |data[i]| == Width(numStates, layers[i]) {
        SliceFits(numStates, layers[i], src);
      }
      ok := Write(dst, data, budget);
    }
  }

  lemma ZeroLayer(n: nat, w: nat)
    requires 0 < n
    ensures Divides(n, Zeros(n * w))
  {
    var q := n * w / n;
    MulMono(n, q + 1, w);
    MulMono(n, w + 1, q);
  }

  lemma MulMono(n: nat, a: nat, b: nat)
    ensures a <= b ==> n * a <= n * b
  {
  }
}
