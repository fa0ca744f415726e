/**
 Shape manipulation of recurrent states. A tensor is a sequence of layers,
 each a sequence of values; the batch dimension, always 1 at inference, is
 left implicit. The element type is abstract: only shapes and the identity of
 layers matter here, never arithmetic.
 */
module Tensors {
  import opened Results

  type Tensor<T> = seq<seq<T>>

  /** The (hidden, cell) pair a long short-term memory layer carries. */
  datatype StatePair<T> = StatePair(hidden: Tensor<T>, cell: Tensor<T>)

  /** `t` has `depth` layers, each `width` wide. */
  predicate Shaped<T>(t: Tensor<T>, depth: nat, width: nat) {
    |t| == depth && forall i :: 0 <= i < |t| ==> |t[i]| == width
  }

  /** The encoder's summary of one state tensor: `cat((t[-2], t[-1]), dim=1).unsqueeze(0)`.
      A bidirectional network lists the forward then the backward final state
      of its deepest layer last; the summary is one layer holding both side by
      side. Python's negative indexing fails on a tensor of fewer than two layers. */
  function Summarize<T>(t: Tensor<T>): (r: Option<Tensor<T>>)
    ensures r.Some? <==> |t| >= 2
    ensures r.Some? ==> |r.value| == 1 && |r.value[0]| == |t[|t| - 2]| + |t[|t| - 1]|
    ensures r.Some? ==> r.value[0][..|t[|t| - 2]|] == t[|t| - 2]
    ensures r.Some? ==> r.value[0][|t[|t| - 2]|..] == t[|t| - 1]
  {
    if |t| < 2 then None else Some([t[|t| - 2] + t[|t| - 1]])
  }

  /** A layer of a summary, cut back into its forward and backward halves. */
  function SplitHalves<T>(row: seq<T>, width: nat): (r: (seq<T>, seq<T>))
    requires |row| == 2 * width
    ensures |r.0| == width && |r.1| == width
    ensures r.0 + r.1 == row
  {
    (row[..width], row[width..])
  }

  /** The summary of a `depth` x `width` tensor is one layer `2 * width` wide
      from which both directional states come back unchanged: concatenation
      loses nothing. */
  lemma SummaryLossless<T>(t: Tensor<T>, depth: nat, width: nat)
    requires Shaped(t, depth, width) && depth >= 2
    ensures Summarize(t).Some?
    ensures Shaped(Summarize(t).value, 1, 2 * width)
    ensures SplitHalves(Summarize(t).value[0], width) == (t[depth - 2], t[depth - 1])
  {
  }

  /** `t.repeat(n, 1, 1)`: the whole tensor stacked `n` times along the layer axis. */
  function Repeat<T>(t: Tensor<T>, n: nat): (r: Tensor<T>)
    ensures |r| == n * |t|
    ensures forall i :: 0 <= i < |r| ==> r[i] in t
    ensures |t| == 1 ==> forall i :: 0 <= i < |r| ==> r[i] == t[0]
  {
    if n == 0 then [] else t + Repeat(t, n - 1)
  }

  /** Layer `j` of copy `k` of a repeated tensor is layer `j` of the original. */
  lemma {:induction false} RepeatTiles<T>(t: Tensor<T>, n: nat, k: nat, j: nat)
    requires k < n && j < |t|
    ensures k * |t| + j < |Repeat(t, n)|
    ensures Repeat(t, n)[k * |t| + j] == t[j]
  {
    if k > 0 {
      RepeatTiles(t, n - 1, k - 1, j);
      assert k * |t| + j == |t| + ((k - 1) * |t| + j);
    }
  }

  /** Repeating keeps every layer's width. */
  lemma RepeatShaped<T>(t: Tensor<T>, n: nat, depth: nat, width: nat)
    requires Shaped(t, depth, width)
    ensures Shaped(Repeat(t, n), n * depth, width)
  {
  }

  /** The state bridge: the encoder summary (hidden and cell separately)
      repeated once per decoder layer. */
  function Bridge<T>(s: StatePair<T>, layers: nat): (r: StatePair<T>)
    ensures |r.hidden| == layers * |s.hidden| && |r.cell| == layers * |s.cell|
    ensures |s.hidden| == 1 ==> forall i :: 0 <= i < |r.hidden| ==> r.hidden[i] == s.hidden[0]
    ensures |s.cell| == 1 ==> forall i :: 0 <= i < |r.cell| ==> r.cell[i] == s.cell[0]
  {
    StatePair(Repeat(s.hidden, layers), Repeat(s.cell, layers))
  }
}
