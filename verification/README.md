# Greedy Urdu-to-Roman-Urdu inference, modelled in Dafny

This project models the inference core of the Urdu-To-Roman translator. That core is a sequence-to-sequence network: a two-layer bidirectional LSTM encoder and a four-layer LSTM decoder. It turns one Urdu sentence into Roman Urdu by greedy decoding.

The networks and the SentencePiece tokenizers are abstract functions. What is modelled and proved is the control logic around them:

- **Encoder summary** (`Tensors.Summarize`, `Inference.EncoderForward`). The last two directional final states are concatenated along the width axis into one depth-1 layer. This is done for the hidden and the cell state separately.
- **State bridge** (`Tensors.Repeat`, `Tensors.Bridge`). The summary is repeated once per decoder layer (`DEC_LAYERS = 4`).
- **Greedy loop** (`Greedy.Decode`, `Greedy.GreedyIds`):
  - It starts from the begin id and makes at most `max_len` (180) decoder steps.
  - Each step takes the first-index argmax of integer scores.
  - It stops on the end id without emitting it. Any other id is emitted and fed back as the next input.
- **Cleanup** (`Inference.Cleanup`). One `replace(marker, "")` pass each for `<s>`, `</s>` and `<pad>`, in that order, then `strip()`.
- **Lazy loader** (`Registry.Load`, `Registry.LoadAsWritten`):
  - A cache that is either empty or holds one bundle.
  - Artifact checks run in a fixed order.
  - The weight mapping is taken from `model_state_dict`, else `state_dict`, else the whole checkpoint.
- **Entry point** (`Translate.TranslateOnce`). Blank input returns `""`. Every loading or decoding failure also becomes `""`.

Tensors are sequences of layers, each layer a sequence of values. The batch dimension is always 1 at inference and is left implicit. The following Python exceptions inside the core become explicit error values:

- `h[-2]` on a state with fewer than two layers;
- `torch.argmax` over empty scores;
- missing or unreadable artifacts;
- a rejected state dict.

The decode loop has two definitions:

- `Greedy.Decode` is the recursion.
- `Greedy.IsGreedyRun` describes the loop step by step. It says which state and which input the decoder sees at step *i*, and what each step emits.

`DecodeSound` and `DecodeComplete` show that the two agree. `GreedyRunUnique` follows: the run is fixed by the step function, the initial state, the two special ids and the budget.

Three behaviours of the code are easy to miss:

- `translate_once` calls the loader *before* it checks for blank input. Blank input therefore still triggers a load, but it never reaches the decoder.
- Every failure inside `translate_once` becomes `""`, which looks the same as a blank input. The two modelled decoding failures stay distinct inside `Inference.GreedyDecode`, which returns a `Result`.
- The loader is not all-or-nothing (see Findings). The rest of the model uses the corrected loader.

## Model

| member | source | states |
|---|---|---|
| Text.Strip | backend/tests/test_infer_bilstm_seq2seq.py:197 | `strip()` returns a string with no whitespace at either end, never longer than its input |
| Text.StripPadded | backend/tests/test_infer_bilstm_seq2seq.py:197 | whatever `strip()` removes is whitespace: the input is the result with whitespace before and after it |
| Text.StripOfPadding | backend/tests/test_infer_bilstm_seq2seq.py:197 | stripping a trimmed string that has whitespace added at both ends gives back exactly that string |
| Text.StripIdempotent | backend/tests/test_infer_bilstm_seq2seq.py:197 | a general property of `strip()`: stripping already stripped text changes nothing |
| Text.StripEmptyIffBlank | backend/tests/test_infer_bilstm_seq2seq.py:214 | `not s.strip()` holds exactly when every character of `s` is whitespace |
| Text.Remove | backend/tests/test_infer_bilstm_seq2seq.py:195-196 | `replace(marker, "")` never lengthens the text |
| Text.RemoveChangesIffOccurs | backend/tests/test_infer_bilstm_seq2seq.py:195-196 | a `replace(marker, "")` pass leaves the text unchanged exactly when the marker does not occur in it |
| Text.RemoveHit | backend/tests/test_infer_bilstm_seq2seq.py:195-196 | a marker at the front of the text is dropped and the scan resumes right after it |
| Text.RemoveAtFirstOccurrence | backend/tests/test_infer_bilstm_seq2seq.py:195-196 | the text before the first occurrence of the marker is kept, that occurrence is dropped, and the scan resumes after it, as `str.replace` driven by `find` does |
| Text.RemoveCanReformMarker | backend/tests/test_infer_bilstm_seq2seq.py:195-196 | one removal pass can re-form the marker: `<pa<pad>d>` becomes `<pad>` |
| Tensors.Summarize | backend/tests/test_infer_bilstm_seq2seq.py:43-44 | the summary exists exactly when the state has at least two layers; it is one layer whose first part is `t[-2]` and whose rest is `t[-1]` |
| Tensors.SummaryLossless | backend/tests/test_infer_bilstm_seq2seq.py:41-44 | the summary of a depth x W state is 1 x 2W, and splitting it at W gives back `t[-2]` and `t[-1]` |
| Tensors.Repeat | backend/tests/test_infer_bilstm_seq2seq.py:176-177 | `repeat(n, 1, 1)` has `n` times the layers; every layer comes from the input, and a depth-1 input is copied into every layer |
| Tensors.RepeatTiles | backend/tests/test_infer_bilstm_seq2seq.py:176-177 | layer `j` of copy `k` of a repeated tensor is layer `j` of the original |
| Tensors.RepeatShaped | backend/tests/test_infer_bilstm_seq2seq.py:176-177 | repeating keeps every layer's width and multiplies the depth |
| Tensors.Bridge | backend/tests/test_infer_bilstm_seq2seq.py:176-177 | the bridged hidden and cell states each have `layers` layers, each identical to the single summary layer |
| Greedy.Argmax | backend/tests/test_infer_bilstm_seq2seq.py:185-186 | the chosen id is a maximum of the scores, and every earlier score is strictly smaller |
| Greedy.FirstArgmaxUnique | backend/tests/test_infer_bilstm_seq2seq.py:185 | a score vector has only one first maximum |
| Greedy.Decode | backend/tests/test_infer_bilstm_seq2seq.py:183-190 | at most `budget` steps; the end id is never emitted; the budget is used up exactly when `budget` ids were emitted; otherwise there is one more step than ids |
| Greedy.GreedyIds | backend/tests/test_infer_bilstm_seq2seq.py:179-190 | output length and step count are at most `max_len`; `max_len = 0` means no step and no output; stopping on the end id means one id fewer than steps |
| Greedy.DecodeSound | backend/tests/test_infer_bilstm_seq2seq.py:180-190 | each emitted id is the first argmax of its step's scores; the input to step i+1 is the id emitted at step i; the loop stops exactly on budget, end id or empty scores |
| Greedy.DecodeComplete | backend/tests/test_infer_bilstm_seq2seq.py:180-190 | any run with the step-by-step properties is the run the loop produces |
| Greedy.GreedyRunUnique | backend/tests/test_infer_bilstm_seq2seq.py:166-190 | determinism: two runs from the same step function, initial state, special ids and budget are equal |
| Greedy.EosAtStep | backend/tests/test_infer_bilstm_seq2seq.py:186-189 | if steps 1..k-1 emit `prefix` and the end id wins at step k (with k at most the budget), the output is exactly `prefix`, after k steps |
| Greedy.ToyDecode | backend/tests/test_infer_bilstm_seq2seq.py:179-190 | a decoder that favours id 4 and then the end id 2 yields `[4]` after two steps |
| Inference.EncoderForward | backend/tests/test_infer_bilstm_seq2seq.py:38-45 | the encoder summary exists exactly when both raw states have at least two layers; it has depth 1 |
| Inference.EncoderSummaryShape | backend/tests/test_infer_bilstm_seq2seq.py:13-44 | with the trained shapes (4 directional layers, 512 wide), the summary is 1 x 1024 and splits back into the deepest layer's forward and backward states |
| Inference.StartState | backend/tests/test_infer_bilstm_seq2seq.py:171-177 | the decoder's initial hidden and cell states have `DEC_LAYERS` layers, each equal to the encoder's summary layer |
| Inference.StartStateFitsDecoder | backend/tests/test_infer_bilstm_seq2seq.py:134-177 | with the trained encoder shapes, the initial state is `DEC_LAYERS` x `2 * HIDDEN_DIM`, which is what the decoder is built for |
| Inference.Hypothesis | backend/tests/test_infer_bilstm_seq2seq.py:171-190 | the emitted ids exist exactly when the encoder summary does, and they form the greedy run from the bridged state |
| Inference.Cleanup | backend/tests/test_infer_bilstm_seq2seq.py:193-197 | the result is `strip()` applied after the `<s>`, `</s>` and `<pad>` removal passes in that order; it has no whitespace at either end and is never longer than its input; marker-free text is only stripped; trimmed marker-free text is unchanged |
| Inference.CleanupDropsLeadingMarker | backend/tests/test_infer_bilstm_seq2seq.py:193-197 | a leading `<s>` in front of marker-free text is removed, and the rest is only stripped |
| Inference.GreedyDecode | backend/tests/test_infer_bilstm_seq2seq.py:166-197 | fails on a shallow encoder state or on empty scores; otherwise returns the cleanup of the decoded greedy ids, trimmed |
| Registry.StateDictOf | backend/tests/test_infer_bilstm_seq2seq.py:145-151 | uses `model_state_dict` when present, else `state_dict`, else the whole checkpoint |
| Registry.MissingFile | backend/tests/test_infer_bilstm_seq2seq.py:100-106 | reports the first missing artifact, in the order checkpoint, source tokenizer, target tokenizer |
| Registry.LoadAsWritten | backend/tests/test_infer_bilstm_seq2seq.py:81-161 | as written: a filled cache is returned as is; a missing file or unreadable tokenizer fails with the cache untouched; an unreadable or rejected checkpoint fails yet leaves a bundle cached; all artifacts present and the weights accepted gives success |
| Registry.LoadAsWrittenServesRejectedWeights | backend/tests/test_infer_bilstm_seq2seq.py:140-151 | as written: when the state dict is rejected, the first call raises but the second returns the network that load left behind |
| Registry.LoadAsWrittenServesUnloadedNetwork | backend/tests/test_infer_bilstm_seq2seq.py:134-143 | as written: when `torch.load` cannot read the checkpoint, the first call raises but the second returns the untrained network built at lines 134-140 |
| Registry.Load | backend/tests/test_infer_bilstm_seq2seq.py:81-161 | a filled cache is returned as is; a failure leaves the cache as it was; each failure (missing file in order, unreadable tokenizer, unreadable checkpoint, rejected weights) is reported; an empty cache loads exactly when all artifacts are present and the weights are accepted, and the bundle then holds the loaded networks and both tokenizers; begin and end ids are the target tokenizer's ids for `<s>` and `</s>` |
| Registry.LoadRetriesAfterRejection | backend/tests/test_infer_bilstm_seq2seq.py:142-161 | with the all-or-nothing loader, a rejected checkpoint is reported on every call and the cache stays empty |
| Registry.LoadIdempotent | backend/tests/test_infer_bilstm_seq2seq.py:87-88 | after a successful load, a later call returns the same bundle and cache, whatever the environment then holds |
| Translate.TranslateOnce | backend/tests/test_infer_bilstm_seq2seq.py:200-229 | the reply is trimmed; blank input or a failed load gives `""` without decoding; the cache is the loader's; with a loaded model and non-blank input the loop runs on the stripped input with budget 180 and the reply is the decode's output, or `""` when it fails; a non-empty reply comes from such a run |
| Translate.TranslateRepeatable | backend/tests/test_infer_bilstm_seq2seq.py:210-223 | a second call with the cache left by a successful first call returns the identical reply |

## Left out

- LSTM, embedding and linear-layer numerics, dropout, `eval()` and floating-point logits: the encoder LSTM and the decoder step are abstract functions, and scores are integers.
- SentencePiece `encode`, `decode`, `piece_to_id` and `load`: they are abstract functions or an optional loaded tokenizer.
- `torch.load` and the shape checks inside `load_state_dict`: each is an input that either succeeds or raises.
- `torch.device` choice, device placement and path resolution: they do not affect the control logic.
- `print` and `traceback` logging.
- `Seq2Seq.forward`, the teacher-forced training pass (lines 71-78): it is not used at inference. Its `repeat` is the same bridge as `Tensors.Bridge`.
- `get_model_info` (lines 232-254): parameter counting over the network internals.
- The `__main__` block: it only prints.
- Global-variable concurrency: the source has no locking, so two first calls can both load.
- A `None` input to `translate_once`: strings cannot be `None` here. Python would return `""` for it too.
- Translate.TranslateOnce: composed with the corrected all-or-nothing `Registry.Load`, not the loader as written. So after a rejected or unreadable checkpoint a later non-blank call returns `""` here, while the code decodes with the network left cached (lines 87-88, 212, 218): the partly loaded network after a rejected state dict (never switched to evaluation mode, since `eval()` at line 153 is not reached), or the untrained network when `torch.load` raised. That as-written behaviour is stated at the loader level by `Registry.LoadAsWrittenServesRejectedWeights` and `Registry.LoadAsWrittenServesUnloadedNetwork`.
- Exceptions raised by the collaborators: the encoder LSTM, the decoder step and SentencePiece `encode`/`decode` are total functions here, assumed not to raise (for example an LSTM run on an empty id sequence, or a device error inside the decoder). In the code any such exception also ends as `""` (lines 225-229). The model reaches a decoding failure only through the two `DecodeFault` shapes: a shallow encoder state or empty scores.
- Text.Remove: only modelled for a non-empty marker. The code calls it only with the three non-empty marker strings.
- The HTTP service, the Streamlit app and the React front end: they are thin wrappers over `translate_once`.

## Findings

| source | as written | input that shows it | evidently intended | confidence | as-written member | corrected member |
|---|---|---|---|---|---|---|
| backend/tests/test_infer_bilstm_seq2seq.py:140-151 | `_model` and the tokenizer globals are assigned before `torch.load` and `load_state_dict`. When either raises, the call raises, but the cache check at line 87 then sees `_model` set | a checkpoint whose state dict does not match the architecture: the first call raises; the second call returns the untrained or partly loaded network with no error, and translations use it. A checkpoint `torch.load` cannot read does the same with the untrained network (`Registry.LoadAsWrittenServesUnloadedNetwork`) | load all-or-nothing, so a failed load leaves nothing cached and every call reports the failure | not executed; medium (follows from the statement order) | Registry.LoadAsWrittenServesRejectedWeights | Registry.Load |
