/**
 The entry point `translate_once`: ensure the model is loaded, refuse blank
 input, decode the stripped text with the fixed step budget, and turn every
 failure (loading or decoding) into the empty string.
 */
module Translate {
  import opened Results
  import opened Text
  import opened Greedy
  import opened Inference
  import opened Registry

  /** What one call returns (`text`), the cache it leaves behind, and the
      decode loop's run when the loop was entered. */
  datatype Reply<!T> = Reply(text: string, cache: Cache<T>, hypothesis: Option<DecodeRun>)

  function TranslateOnce<T, W>(cache: Cache<T>, env: Env<T, W>, input: string): (r: Reply<T>)
    ensures Trimmed(r.text)
    ensures AllSpace(input) ==> r.text == "" && r.hypothesis.None?
    ensures Load(cache, env).0.Err? ==> r.text == "" && r.cache == cache && r.hypothesis.None?
    ensures r.cache == Load(cache, env).1
    ensures cache.Some? ==> r.cache == cache
    ensures Load(cache, env).0.Ok? && !AllSpace(input) ==>
              r.hypothesis == Hypothesis(Load(cache, env).0.value, Strip(input), MAX_LEN)
    ensures Load(cache, env).0.Ok? && !AllSpace(input) ==>
              r.text == (match GreedyDecode(Load(cache, env).0.value, Strip(input), MAX_LEN)
                         case Ok(s) => s
                         case Err(_) => "")
    ensures r.text != "" ==> r.hypothesis.Some? && r.hypothesis.value.stop != Fault
    ensures r.hypothesis.Some? ==>
              && r.cache.Some? && !AllSpace(input)
              && r.hypothesis.value.calls <= MAX_LEN
              && StartState(r.cache.value, Strip(input)).Some?
              && IsGreedyRun(r.cache.value.net.decoderStep, StartState(r.cache.value, Strip(input)).value,
                             r.cache.value.bos, r.cache.value.eos, MAX_LEN, r.hypothesis.value)
    ensures r.hypothesis.Some? && r.hypothesis.value.stop != Fault ==>
              r.text == Cleanup(r.cache.value.tgt.decode(r.hypothesis.value.ids))
  {
    var (loaded, cache') := Load(cache, env);
    StripEmptyIffBlank(input);
    if loaded.Err? || Strip(input) == [] then Reply("", cache', None)
    else
      var b := loaded.value;
      var text := Strip(input);
      var h := Hypothesis(b, text, MAX_LEN);
      match GreedyDecode(b, text, MAX_LEN)
      case Ok(s) => Reply(s, cache', h)
      case Err(_) => Reply("", cache', h)
  }

  /** A second call with the cache the first one left returns the same
      translation, whatever the environment then holds: nothing is reloaded
      and decoding is deterministic. */
  lemma TranslateRepeatable<T, W>(env: Env<T, W>, later: Env<T, W>, input: string)
    requires Load(None, env).0.Ok?
    ensures TranslateOnce(TranslateOnce(None, env, input).cache, later, input) == TranslateOnce(None, env, input)
  {
    LoadIdempotent(None, env, later);
  }
}
