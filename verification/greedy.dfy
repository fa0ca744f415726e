/**
 Greedy autoregressive decoding. The decoder network is an abstract step
 function from (previous token, state) to (integer scores over the target
 vocabulary, next state). Starting from the begin-of-sequence token, each
 step takes the first-index argmax of the scores; the end-of-sequence id
 stops the loop without being emitted, any other id is emitted and fed back
 as the next input, and at most `maxLen` steps are taken.
 */
module Greedy {

  /** The step budget of `greedy_decode` (its default, and what
      `translate_once` passes). */
  const MAX_LEN: nat := 180

  /** `k` is the index of the first maximum of `scores` (`torch.argmax`'s tie rule). */
  predicate IsFirstArgmax(scores: seq<int>, k: int) {
    && 0 <= k < |scores|
    && (forall j :: 0 <= j < |scores| ==> scores[j] <= scores[k])
    && (forall j :: 0 <= j < k ==> scores[j] < scores[k])
  }

  function Argmax(scores: seq<int>): (k: nat)
    requires |scores| > 0
    ensures IsFirstArgmax(scores, k)
    decreases |scores|
  {
    if |scores| == 1 then 0
    else
      var k := Argmax(scores[..|scores| - 1]);
      if scores[|scores| - 1] > scores[k] then |scores| - 1 else k
  }

  /** A score vector has one first maximum. */
  lemma FirstArgmaxUnique(scores: seq<int>, a: int, b: int)
    requires IsFirstArgmax(scores, a) && IsFirstArgmax(scores, b)
    ensures a == b
  {
    assert scores[a] == scores[b];
  }

  /** Why the loop stopped: the end token was chosen, the step budget ran
      out, or the scores were empty (where `torch.argmax` raises). */
  datatype Stop = Eos | Budget | Fault

  /** The outcome of the loop: the emitted ids, how many times the decoder
      step was applied, and why the loop ended. */
  datatype DecodeRun = DecodeRun(ids: seq<int>, calls: nat, stop: Stop)

  /** The loop from the current input token `cur` and state `st`, with
      `budget` steps left. */
  function Decode<S>(step: (int, S) -> (seq<int>, S), cur: int, st: S, eos: int, budget: nat): (run: DecodeRun)
    ensures run.calls <= budget
    ensures forall i :: 0 <= i < |run.ids| ==> run.ids[i] != eos
    ensures run.stop == Budget <==> |run.ids| == budget
    ensures run.stop == Budget ==> run.calls == budget
    ensures run.stop != Budget ==> run.calls == |run.ids| + 1
    ensures budget == 0 ==> run == DecodeRun([], 0, Budget)
    decreases budget
  {
    if budget == 0 then DecodeRun([], 0, Budget)
    else
      var out := step(cur, st);
      if |out.0| == 0 then DecodeRun([], 1, Fault)
      else
        var tid := Argmax(out.0);
        if tid == eos then DecodeRun([], 1, Eos)
        else
          var rest := Decode(step, tid, out.1, eos, budget - 1);
          DecodeRun([tid] + rest.ids, rest.calls + 1, rest.stop)
  }

  /** `greedy_decode`'s loop proper: from the begin token and the bridged state. */
  function GreedyIds<S>(step: (int, S) -> (seq<int>, S), init: S, bos: int, eos: int, maxLen: nat): (run: DecodeRun)
    ensures run.calls <= maxLen && |run.ids| <= maxLen
    ensures forall i :: 0 <= i < |run.ids| ==> run.ids[i] != eos
    ensures maxLen == 0 ==> run.ids == [] && run.calls == 0
    ensures run.stop == Eos ==> |run.ids| == run.calls - 1
  {
    Decode(step, bos, init, eos, maxLen)
  }

  // ---- The loop described step by step, independently of its recursion ----

  /** The token fed to the decoder at step `i` (0-based) of a run that emitted `ids`. */
  function InputAt(bos: int, ids: seq<int>, i: nat): int
    requires i <= |ids|
  {
    if i == 0 then bos else ids[i - 1]
  }

  /** The state handed to the decoder at step `i`. */
  function StateAt<S>(step: (int, S) -> (seq<int>, S), init: S, bos: int, ids: seq<int>, i: nat): S
    requires i <= |ids|
    decreases i
  {
    if i == 0 then init
    else step(InputAt(bos, ids, i - 1), StateAt(step, init, bos, ids, i - 1)).1
  }

  /** The scores the decoder returns at step `i`. */
  function ScoresAt<S>(step: (int, S) -> (seq<int>, S), init: S, bos: int, ids: seq<int>, i: nat): seq<int>
    requires i <= |ids|
  {
    step(InputAt(bos, ids, i), StateAt(step, init, bos, ids, i)).0
  }

  /** Step `i` emitted `ids[i]`: it is the first argmax of that step's scores
      and not the end token. */
  predicate EmittedAt<S>(step: (int, S) -> (seq<int>, S), init: S, bos: int, eos: int, ids: seq<int>, i: nat)
    requires i < |ids|
  {
    IsFirstArgmax(ScoresAt(step, init, bos, ids, i), ids[i]) && ids[i] != eos
  }

  /** `run` is a greedy decode: every emitted id is that step's first argmax,
      fed back as the next input, and the run ends exactly when the budget is
      used up, the end token wins, or the scores are empty. */
  predicate IsGreedyRun<S>(step: (int, S) -> (seq<int>, S), init: S, bos: int, eos: int, maxLen: nat, run: DecodeRun) {
    && |run.ids| <= maxLen
    && (forall i :: 0 <= i < |run.ids| ==> EmittedAt(step, init, bos, eos, run.ids, i))
    && match run.stop
       case Budget => |run.ids| == maxLen && run.calls == maxLen
       case Eos =>
         && |run.ids| < maxLen && run.calls == |run.ids| + 1
         && IsFirstArgmax(ScoresAt(step, init, bos, run.ids, |run.ids|), eos)
       case Fault =>
         && |run.ids| < maxLen && run.calls == |run.ids| + 1
         && ScoresAt(step, init, bos, run.ids, |run.ids|) == []
  }

  /** A run that starts by emitting `tid` continues as a run that starts from
      `tid` and the state after the first step. */
  lemma {:induction false} ShiftStateAt<S>(step: (int, S) -> (seq<int>, S), init: S, bos: int, tid: int, ids: seq<int>, i: nat)
    requires i <= |ids|
    ensures InputAt(bos, [tid] + ids, i + 1) == InputAt(tid, ids, i)
    ensures StateAt(step, init, bos, [tid] + ids, i + 1) == StateAt(step, step(bos, init).1, tid, ids, i)
    ensures ScoresAt(step, init, bos, [tid] + ids, i + 1) == ScoresAt(step, step(bos, init).1, tid, ids, i)
    decreases i
  {
    if i > 0 {
      ShiftStateAt(step, init, bos, tid, ids, i - 1);
    }
  }

  /** The recursive loop produces a greedy run. */
  lemma {:induction false} DecodeSound<S>(step: (int, S) -> (seq<int>, S), init: S, bos: int, eos: int, maxLen: nat)
    ensures IsGreedyRun(step, init, bos, eos, maxLen, GreedyIds(step, init, bos, eos, maxLen))
    decreases maxLen
  {
    var run := Decode(step, bos, init, eos, maxLen);
    if maxLen > 0 {
      var out := step(bos, init);
      assert ScoresAt(step, init, bos, [], 0) == out.0;
      if |out.0| > 0 && Argmax(out.0) != eos {
        var tid := Argmax(out.0);
        var rest := Decode(step, tid, out.1, eos, maxLen - 1);
        DecodeSound(step, out.1, tid, eos, maxLen - 1);
        assert run.ids == [tid] + rest.ids;
        forall i | 0 <= i < |run.ids|
          ensures EmittedAt(step, init, bos, eos, run.ids, i)
        {
          if i == 0 {
            assert ScoresAt(step, init, bos, run.ids, 0) == out.0;
          } else {
            ShiftStateAt(step, init, bos, tid, rest.ids, i - 1);
            assert EmittedAt(step, out.1, tid, eos, rest.ids, i - 1);
          }
        }
        ShiftStateAt(step, init, bos, tid, rest.ids, |rest.ids|);
      }
    }
  }

  /** Every greedy run is the one the recursive loop produces. */
  lemma {:induction false} DecodeComplete<S>(step: (int, S) -> (seq<int>, S), init: S, bos: int, eos: int, maxLen: nat, run: DecodeRun)
    requires IsGreedyRun(step, init, bos, eos, maxLen, run)
    ensures run == GreedyIds(step, init, bos, eos, maxLen)
    decreases maxLen
  {
    if maxLen > 0 {
      var out := step(bos, init);
      assert ScoresAt(step, init, bos, run.ids, 0) == out.0;
      if |run.ids| > 0 {
        assert EmittedAt(step, init, bos, eos, run.ids, 0);
        FirstArgmaxUnique(out.0, run.ids[0], Argmax(out.0));
        var tid := run.ids[0];
        var tail := DecodeRun(run.ids[1..], run.calls - 1, run.stop);
        assert run.ids == [tid] + tail.ids;
        forall i | 0 <= i < |tail.ids|
          ensures EmittedAt(step, out.1, tid, eos, tail.ids, i)
        {
          ShiftStateAt(step, init, bos, tid, tail.ids, i);
          assert EmittedAt(step, init, bos, eos, run.ids, i + 1);
        }
        ShiftStateAt(step, init, bos, tid, tail.ids, |tail.ids|);
        assert IsGreedyRun(step, out.1, tid, eos, maxLen - 1, tail);
        DecodeComplete(step, out.1, tid, eos, maxLen - 1, tail);
      } else if |out.0| > 0 {
        FirstArgmaxUnique(out.0, eos, Argmax(out.0));
      }
    }
  }

  /** Determinism: the emitted ids, the number of steps and the reason for
      stopping are fixed by the step function, the initial state, the two
      special ids and the budget. */
  lemma GreedyRunUnique<S>(step: (int, S) -> (seq<int>, S), init: S, bos: int, eos: int, maxLen: nat, r1: DecodeRun, r2: DecodeRun)
    requires IsGreedyRun(step, init, bos, eos, maxLen, r1)
    requires IsGreedyRun(step, init, bos, eos, maxLen, r2)
    ensures r1 == r2
  {
    DecodeComplete(step, init, bos, eos, maxLen, r1);
    DecodeComplete(step, init, bos, eos, maxLen, r2);
  }

  /** If the steps before step `k` (1-based) emit `prefix` and the end token
      wins at step `k`, with `k <= maxLen`, the loop stops there: the output
      is exactly those `k - 1` ids, after `k` applications of the decoder. */
  lemma EosAtStep<S>(step: (int, S) -> (seq<int>, S), init: S, bos: int, eos: int, maxLen: nat, prefix: seq<int>)
    requires |prefix| < maxLen
    requires forall i :: 0 <= i < |prefix| ==> EmittedAt(step, init, bos, eos, prefix, i)
    requires IsFirstArgmax(ScoresAt(step, init, bos, prefix, |prefix|), eos)
    ensures GreedyIds(step, init, bos, eos, maxLen) == DecodeRun(prefix, |prefix| + 1, Eos)
  {
    DecodeComplete(step, init, bos, eos, maxLen, DecodeRun(prefix, |prefix| + 1, Eos));
  }

  /** A decoder whose scores favour id 4 at its first step and the end id 2
      at its second, whatever token it is fed, decodes to `[4]` from begin
      id 1 and stops after two steps. */
  lemma ToyDecode()
    ensures GreedyIds((tok: int, n: int) => (if n == 0 then [0, 0, 0, 0, 5] else [0, 0, 5, 0, 0], n + 1), 0, 1, 2, MAX_LEN)
            == DecodeRun([4], 2, Eos)
  {
    var step := (tok: int, n: int) => (if n == 0 then [0, 0, 0, 0, 5] else [0, 0, 5, 0, 0], n + 1);
    var first: seq<int> := [0, 0, 0, 0, 5];
    var second: seq<int> := [0, 0, 5, 0, 0];
    assert ScoresAt(step, 0, 1, [4], 0) == first;
    assert IsFirstArgmax(first, 4);
    assert StateAt(step, 0, 1, [4], 1) == 1;
    assert ScoresAt(step, 0, 1, [4], 1) == second;
    assert IsFirstArgmax(second, 2);
    assert EmittedAt(step, 0, 1, 2, [4], 0);
    EosAtStep(step, 0, 1, 2, MAX_LEN, [4]);
  }
}
