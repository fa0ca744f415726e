/**
 The process-wide lazy loader `load_model_and_tokenizers`: a cache that is
 either empty or holds one bundle, filled on the first successful call.
 File presence, the subword-model loads, `torch.load` and
 `load_state_dict` are inputs collected in an environment.
 */
module Registry {
  import opened Results
  import opened Inference

  /** Which of the three artifacts exist on disk. */
  datatype Files = Files(checkpoint: bool, srcTokenizer: bool, tgtTokenizer: bool)

  /** A deserialised checkpoint: a string-keyed mapping or a bare value. */
  datatype Obj<W> = Dict(entries: map<string, Obj<W>>) | Leaf(value: W)

  datatype LoadError =
    | MissingCheckpoint
    | MissingSrcTokenizer
    | MissingTgtTokenizer
    | UnreadableTokenizer
    | UnreadableCheckpoint
    | RejectedStateDict

  /** Everything the loader reads from outside the process.
      `srcModel` / `tgtModel`: the SentencePiece load, `None` when it raises.
      `built`: the networks as constructed, before any weights are loaded.
      `checkpoint`: `torch.load`, `None` when it raises.
      `loadStateDict`: the networks after the in-place `load_state_dict`, and
      whether it accepted the mapping (it raises when it does not). */
  datatype Env<!T, !W> = Env(
    files: Files,
    srcModel: Option<Tokenizer>,
    tgtModel: Option<Tokenizer>,
    built: Network<T>,
    checkpoint: Option<Obj<W>>,
    loadStateDict: Obj<W> -> (Network<T>, bool))

  /** The cached bundle, if any (the module globals `_model`, `_src_tokenizer`, ...). */
  type Cache<!T> = Option<Bundle<T>>

  const MODEL_KEY: string := "model_state_dict"
  const STATE_KEY: string := "state_dict"

  /** The weight mapping inside a checkpoint: the entry under
      `model_state_dict`, else the one under `state_dict`, else the whole
      checkpoint. */
  function StateDictOf<W>(ckpt: Obj<W>): (r: Obj<W>)
    ensures ckpt.Dict? && MODEL_KEY in ckpt.entries ==> r == ckpt.entries[MODEL_KEY]
    ensures ckpt.Dict? && MODEL_KEY !in ckpt.entries && STATE_KEY in ckpt.entries ==> r == ckpt.entries[STATE_KEY]
    ensures !(ckpt.Dict? && (MODEL_KEY in ckpt.entries || STATE_KEY in ckpt.entries)) ==> r == ckpt
  {
    if ckpt.Dict? && MODEL_KEY in ckpt.entries then ckpt.entries[MODEL_KEY]
    else if ckpt.Dict? && STATE_KEY in ckpt.entries then ckpt.entries[STATE_KEY]
    else ckpt
  }

  /** The first missing artifact, checked in the order checkpoint, source
      tokenizer, target tokenizer. */
  function MissingFile(files: Files): (r: Option<LoadError>)
    ensures r.None? <==> files.checkpoint && files.srcTokenizer && files.tgtTokenizer
    ensures r == Some(MissingCheckpoint) <==> !files.checkpoint
    ensures r == Some(MissingSrcTokenizer) <==> files.checkpoint && !files.srcTokenizer
    ensures r == Some(MissingTgtTokenizer) <==> files.checkpoint && files.srcTokenizer && !files.tgtTokenizer
  {
    if !files.checkpoint then Some(MissingCheckpoint)
    else if !files.srcTokenizer then Some(MissingSrcTokenizer)
    else if !files.tgtTokenizer then Some(MissingTgtTokenizer)
    else None
  }

  /** The bundle the networks `net` form with the loaded tokenizers, the
      special ids read from the target tokenizer. */
  function Assemble<T>(net: Network<T>, src: Tokenizer, tgt: Tokenizer): Bundle<T> {
    Bundle(net, src, tgt, tgt.pieceToId(BOS_PIECE), tgt.pieceToId(EOS_PIECE))
  }

  /** All three artifacts exist and both subword models load: the state in
      which the loader reaches `torch.load`. */
  predicate TokenizersReady<T, W>(env: Env<T, W>) {
    env.files == Files(true, true, true) && env.srcModel.Some? && env.tgtModel.Some?
  }

  /** The networks `load_state_dict` leaves behind for the checkpoint's
      selected weight mapping, and whether it accepted that mapping. */
  function Loaded<T, W>(env: Env<T, W>): (Network<T>, bool)
    requires env.checkpoint.Some?
  {
    env.loadStateDict(StateDictOf(env.checkpoint.value))
  }

  /** The bundle's begin and end ids are the target tokenizer's ids for the
      `<s>` and `</s>` pieces, as every loaded bundle's are. */
  predicate IdsFromTarget<T>(b: Bundle<T>) {
    b.bos == b.tgt.pieceToId(BOS_PIECE) && b.eos == b.tgt.pieceToId(EOS_PIECE)
  }

  /** The loader as written: the globals are assigned (the freshly built
      networks in `_model`) before `torch.load` and `load_state_dict` run, so
      a failure there leaves the cache filled although the call raised. */
  function LoadAsWritten<T, W>(cache: Cache<T>, env: Env<T, W>): (r: (Result<Bundle<T>, LoadError>, Cache<T>))
    ensures cache.Some? ==> r == (Ok(cache.value), cache)
    ensures r.0.Ok? ==> r.1 == Some(r.0.value)
    ensures cache.None? && MissingFile(env.files).Some? ==> r == (Err(MissingFile(env.files).value), cache)
    ensures cache.None? && MissingFile(env.files).None? && (env.srcModel.None? || env.tgtModel.None?) ==>
              r == (Err(UnreadableTokenizer), cache)
    ensures cache.None? && TokenizersReady(env) && env.checkpoint.None? ==>
              r == (Err(UnreadableCheckpoint), Some(Assemble(env.built, env.srcModel.value, env.tgtModel.value)))
    ensures cache.None? && TokenizersReady(env) && env.checkpoint.Some? && !Loaded(env).1 ==>
              r == (Err(RejectedStateDict), Some(Assemble(Loaded(env).0, env.srcModel.value, env.tgtModel.value)))
    ensures cache.None? && TokenizersReady(env) && env.checkpoint.Some? && Loaded(env).1 ==>
              r.0 == Ok(Assemble(Loaded(env).0, env.srcModel.value, env.tgtModel.value))
  {
    if cache.Some? then (Ok(cache.value), cache)
    else if MissingFile(env.files).Some? then (Err(MissingFile(env.files).value), cache)
    else if env.srcModel.None? || env.tgtModel.None? then (Err(UnreadableTokenizer), cache)
    else
      var src := env.srcModel.value;
      var tgt := env.tgtModel.value;
      match env.checkpoint
      case None => (Err(UnreadableCheckpoint), Some(Assemble(env.built, src, tgt)))
      case Some(ckpt) =>
        var (net, accepted) := env.loadStateDict(StateDictOf(ckpt));
        if accepted then (Ok(Assemble(net, src, tgt)), Some(Assemble(net, src, tgt)))
        else (Err(RejectedStateDict), Some(Assemble(net, src, tgt)))
  }

  /** A checkpoint `load_state_dict` rejects makes the first call raise, yet
      the second call returns the networks it left behind, without error. */
  lemma LoadAsWrittenServesRejectedWeights<T, W>(env: Env<T, W>)
    requires TokenizersReady(env) && env.checkpoint.Some? && !Loaded(env).1
    ensures LoadAsWritten(None, env).0 == Err(RejectedStateDict)
    ensures LoadAsWritten(LoadAsWritten(None, env).1, env).0
            == Ok(Assemble(Loaded(env).0, env.srcModel.value, env.tgtModel.value))
  {
  }

  /** A checkpoint `torch.load` cannot read makes the first call raise, yet
      the second call returns the freshly built, untrained networks. */
  lemma LoadAsWrittenServesUnloadedNetwork<T, W>(env: Env<T, W>)
    requires TokenizersReady(env) && env.checkpoint.None?
    ensures LoadAsWritten(None, env).0 == Err(UnreadableCheckpoint)
    ensures LoadAsWritten(LoadAsWritten(None, env).1, env).0
            == Ok(Assemble(env.built, env.srcModel.value, env.tgtModel.value))
  {
  }

  /** The loader with all-or-nothing initialisation: the cache is filled only
      by a load that succeeded, and a later call returns it without reading
      anything again. */
  function Load<T, W>(cache: Cache<T>, env: Env<T, W>): (r: (Result<Bundle<T>, LoadError>, Cache<T>))
    ensures cache.Some? ==> r == (Ok(cache.value), cache)
    ensures r.0.Err? ==> r.1 == cache
    ensures r.0.Ok? ==> r.1 == Some(r.0.value)
    ensures cache.None? && MissingFile(env.files).Some? ==> r.0 == Err(MissingFile(env.files).value)
    ensures cache.None? && MissingFile(env.files).None? && (env.srcModel.None? || env.tgtModel.None?) ==>
              r.0 == Err(UnreadableTokenizer)
    ensures cache.None? && TokenizersReady(env) && env.checkpoint.None? ==> r.0 == Err(UnreadableCheckpoint)
    ensures cache.None? && TokenizersReady(env) && env.checkpoint.Some? && !Loaded(env).1 ==>
              r.0 == Err(RejectedStateDict)
    ensures cache.None? ==>
              (r.0.Ok? <==> TokenizersReady(env) && env.checkpoint.Some? && Loaded(env).1)
    ensures cache.None? && r.0.Ok? ==>
              r.0.value.net == Loaded(env).0 && r.0.value.src == env.srcModel.value && r.0.value.tgt == env.tgtModel.value
    ensures r.0.Ok? && (cache.None? || IdsFromTarget(cache.value)) ==> IdsFromTarget(r.0.value)
  {
    var (result, _) := LoadAsWritten(cache, env);
    if result.Ok? then (result, Some(result.value)) else (result, cache)
  }

  /** A rejected checkpoint leaves the cache empty, so every call reports
      the rejection again instead of serving untrained weights. */
  lemma LoadRetriesAfterRejection<T, W>(env: Env<T, W>)
    requires TokenizersReady(env) && env.checkpoint.Some? && !Loaded(env).1
    ensures Load(None, env) == (Err(RejectedStateDict), None)
    ensures Load(Load(None, env).1, env) == (Err(RejectedStateDict), None)
  {
  }

  /** Idempotence: once a load has succeeded, every later call, whatever the
      environment then holds, returns the same bundle and keeps the cache. */
  lemma LoadIdempotent<T, W>(cache: Cache<T>, env: Env<T, W>, later: Env<T, W>)
    requires Load(cache, env).0.Ok?
    ensures Load(Load(cache, env).1, later) == Load(cache, env)
  {
  }
}
