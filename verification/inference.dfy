/**
 One greedy translation pass over a loaded model: source text to source ids,
 encoder summary, bridge to the decoder's depth, greedy loop, target ids to
 text, marker cleanup. The networks and the subword tokenizers are abstract
 functions; the fixed hyperparameters are those the model was trained with.
 */
module Inference {
  import opened Results
  import opened Text
  import opened Tensors
  import opened Greedy

  const HIDDEN_DIM: nat := 512
  const ENC_LAYERS: nat := 2
  const DEC_LAYERS: nat := 4

  const BOS_PIECE: string := "<s>"
  const EOS_PIECE: string := "</s>"
  const PAD_PIECE: string := "<pad>"

  /** A loaded subword model: text to ids, ids to text, and a piece's id. */
  datatype Tokenizer = Tokenizer(encode: string -> seq<int>, decode: seq<int> -> string, pieceToId: string -> int)

  /** The two networks. `encoderLstm` is embedding plus bidirectional LSTM,
      yielding the final (hidden, cell) of every layer and direction;
      `decoderStep` is one decoder application: embed the token, advance the
      LSTM from the given state, project to vocabulary scores. */
  datatype Network<!T> = Network(
    encoderLstm: seq<int> -> StatePair<T>,
    decoderStep: (int, StatePair<T>) -> (seq<int>, StatePair<T>))

  /** What the loader hands to the translator. */
  datatype Bundle<!T> = Bundle(net: Network<T>, src: Tokenizer, tgt: Tokenizer, bos: int, eos: int)

  /** Where `greedy_decode` raises: indexing `h[-2]` of a state with fewer
      than two layers, or `torch.argmax` over an empty score vector. */
  datatype DecodeFault = ShallowEncoderState | EmptyScores

  /** `Encoder.forward`: the last two directional states, hidden and cell
      separately, concatenated into one depth-1 summary. */
  function EncoderForward<T>(net: Network<T>, srcIds: seq<int>): (r: Option<StatePair<T>>)
    ensures r.Some? <==> |net.encoderLstm(srcIds).hidden| >= 2 && |net.encoderLstm(srcIds).cell| >= 2
    ensures r.Some? ==> |r.value.hidden| == 1 && |r.value.cell| == 1
  {
    var raw := net.encoderLstm(srcIds);
    match (Summarize(raw.hidden), Summarize(raw.cell))
    case (Some(h), Some(c)) => Some(StatePair(h, c))
    case _ => None
  }

  /** With the trained shapes (two layers in two directions, 512 wide), the
      summary is one layer 1024 wide: the forward then the backward final
      state of the deepest layer, for hidden and cell alike. */
  lemma EncoderSummaryShape<T>(net: Network<T>, srcIds: seq<int>)
    requires Shaped(net.encoderLstm(srcIds).hidden, 2 * ENC_LAYERS, HIDDEN_DIM)
    requires Shaped(net.encoderLstm(srcIds).cell, 2 * ENC_LAYERS, HIDDEN_DIM)
    ensures EncoderForward(net, srcIds).Some?
    ensures Shaped(EncoderForward(net, srcIds).value.hidden, 1, 2 * HIDDEN_DIM)
    ensures Shaped(EncoderForward(net, srcIds).value.cell, 1, 2 * HIDDEN_DIM)
    ensures SplitHalves(EncoderForward(net, srcIds).value.hidden[0], HIDDEN_DIM)
            == (net.encoderLstm(srcIds).hidden[2], net.encoderLstm(srcIds).hidden[3])
    ensures SplitHalves(EncoderForward(net, srcIds).value.cell[0], HIDDEN_DIM)
            == (net.encoderLstm(srcIds).cell[2], net.encoderLstm(srcIds).cell[3])
  {
    var raw := net.encoderLstm(srcIds);
    SummaryLossless(raw.hidden, 2 * ENC_LAYERS, HIDDEN_DIM);
    SummaryLossless(raw.cell, 2 * ENC_LAYERS, HIDDEN_DIM);
  }

  /** The decoder's initial state for `text`: encode, run the encoder, and
      repeat the summary once per decoder layer. Every decoder layer starts
      from the same summary. */
  function StartState<T>(b: Bundle<T>, text: string): (r: Option<StatePair<T>>)
    ensures r.Some? <==> EncoderForward(b.net, b.src.encode(text)).Some?
    ensures r.Some? ==> |r.value.hidden| == DEC_LAYERS && |r.value.cell| == DEC_LAYERS
    ensures r.Some? ==> forall i :: 0 <= i < DEC_LAYERS ==>
              r.value.hidden[i] == EncoderForward(b.net, b.src.encode(text)).value.hidden[0]
              && r.value.cell[i] == EncoderForward(b.net, b.src.encode(text)).value.cell[0]
  {
    match EncoderForward(b.net, b.src.encode(text))
    case None => None
    case Some(s) => Some(Bridge(s, DEC_LAYERS))
  }

  /** The state the decoder is started from always has the decoder's depth;
      with the trained encoder shapes it is also the decoder's width. */
  lemma StartStateFitsDecoder<T>(b: Bundle<T>, text: string)
    requires Shaped(b.net.encoderLstm(b.src.encode(text)).hidden, 2 * ENC_LAYERS, HIDDEN_DIM)
    requires Shaped(b.net.encoderLstm(b.src.encode(text)).cell, 2 * ENC_LAYERS, HIDDEN_DIM)
    ensures StartState(b, text).Some?
    ensures Shaped(StartState(b, text).value.hidden, DEC_LAYERS, 2 * HIDDEN_DIM)
    ensures Shaped(StartState(b, text).value.cell, DEC_LAYERS, 2 * HIDDEN_DIM)
  {
    EncoderSummaryShape(b.net, b.src.encode(text));
  }

  /** The ids the greedy loop emits for `text`, if the encoder summary exists. */
  function Hypothesis<T>(b: Bundle<T>, text: string, maxLen: nat): (r: Option<DecodeRun>)
    ensures r.Some? <==> StartState(b, text).Some?
    ensures r.Some? ==> IsGreedyRun(b.net.decoderStep, StartState(b, text).value, b.bos, b.eos, maxLen, r.value)
  {
    match StartState(b, text)
    case None => None
    case Some(init) =>
      DecodeSound(b.net.decoderStep, init, b.bos, b.eos, maxLen);
      Some(GreedyIds(b.net.decoderStep, init, b.bos, b.eos, maxLen))
  }

  /** No marker string occurs in `s`. */
  predicate MarkerFree(s: string) {
    !Occurs(s, BOS_PIECE) && !Occurs(s, EOS_PIECE) && !Occurs(s, PAD_PIECE)
  }

  /** The output hygiene of `greedy_decode`: one `replace(marker, "")` pass per
      marker, in the order begin, end, pad, then `strip()`. A single pass may
      re-form a marker (see `Text.RemoveCanReformMarker`), so the result is
      not promised to be marker-free. */
  function Cleanup(decoded: string): (r: string)
    ensures r == Strip(Remove(Remove(Remove(decoded, BOS_PIECE), EOS_PIECE), PAD_PIECE))
    ensures Trimmed(r)
    ensures |r| <= |decoded|
    ensures MarkerFree(decoded) ==> r == Strip(decoded)
    ensures MarkerFree(decoded) && Trimmed(decoded) ==> r == decoded
  {
    RemoveChangesIffOccurs(decoded, BOS_PIECE);
    RemoveChangesIffOccurs(decoded, EOS_PIECE);
    RemoveChangesIffOccurs(decoded, PAD_PIECE);
    var s := Remove(Remove(Remove(decoded, BOS_PIECE), EOS_PIECE), PAD_PIECE);
    assert Trimmed(decoded) ==> Strip([] + decoded + []) == decoded by {
      if Trimmed(decoded) {
        StripOfPadding([], decoded, []);
      }
    }
    assert [] + decoded + [] == decoded;
    Strip(s)
  }

  /** A begin marker in front of otherwise marker-free text is dropped: the
      cleanup of `<s>` followed by `w` is `w` stripped. */
  lemma CleanupDropsLeadingMarker(w: string)
    requires MarkerFree(w)
    ensures Cleanup(BOS_PIECE + w) == Strip(w)
  {
    RemoveHit(BOS_PIECE, w);
    RemoveChangesIffOccurs(w, BOS_PIECE);
    RemoveChangesIffOccurs(w, EOS_PIECE);
    RemoveChangesIffOccurs(w, PAD_PIECE);
  }

  /** `greedy_decode(model, ur_sp, ro_sp, text, bos_id, eos_id, max_len)`,
      with its exceptions made explicit. */
  function GreedyDecode<T>(b: Bundle<T>, text: string, maxLen: nat): (r: Result<string, DecodeFault>)
    ensures r == Err(ShallowEncoderState) <==> Hypothesis(b, text, maxLen).None?
    ensures r == Err(EmptyScores) <==> Hypothesis(b, text, maxLen).Some? && Hypothesis(b, text, maxLen).value.stop == Fault
    ensures r.Ok? ==> r.value == Cleanup(b.tgt.decode(Hypothesis(b, text, maxLen).value.ids))
    ensures r.Ok? ==> Trimmed(r.value)
  {
    match Hypothesis(b, text, maxLen)
    case None => Err(ShallowEncoderState)
    case Some(run) =>
      if run.stop == Fault then Err(EmptyScores)
      else Ok(Cleanup(b.tgt.decode(run.ids)))
  }
}
