# Neural cache bookkeeping and row harmonisation, modelled in Dafny

This project models two sequential parts of the neural-complexity language
model repository:

1. The cache bookkeeping of `RNNModel` (`model.py`): the constructor's checks,
   `init_hidden`, `init_cache` / `reset_cache`, the `roll` helper, the one-hot
   encoding of the input tokens, and the cached branch of `forward`. That branch
   stores the one-hot inputs at the cache pointer. It then steps through time.
   Each step calls `roll` when the cache is saturated, writes the step's key at
   the pointer, queries the cache when the pointer is past 0, and otherwise
   advances the pointer.
2. `harmonize_rows` (`scripts/harmonize.py`): the greedy alignment of the
   model's surprisal rows with the human reading-time rows.

Modules:

- `Wrappers` (wrappers.dfy): `Option` and `Result`.
- `TensorRoll` (roll.dfy): `roll` as a rotation of the sequence of slices along the rolled axis.
- `OneHot` (one_hot.dfy): one-hot rows, the tensor built by `zero_()` and `scatter_`, and its inverse.
- `RnnConfig` (rnn_config.dfy): constructor validation, `init_hidden`, cache cell width, cache key extraction.
- `NeuralCache` (neural_cache.dfy): the cached forward pass as functions over a snapshot of the cache (`Buffers`), with its properties.
- `RnnModel` (rnn_model.dfy): class `Model` holding the cache fields and the two buffers as arrays. Its methods change them in place and are proved equal to the `NeuralCache` functions.
- `Harmonize` (harmonize.dfy): the alignment as a specification function (`AlignFrom`), the loop that pops from both lists, and its properties.

How the model reads the source:

- `roll` is defined inside the class without `self`, and `forward` calls it as a bare name (model.py:113). No global of that name exists, so the call raises a NameError (`RollUnbound`). Every step that finds the pointer at `cache_size-1` therefore raises before writing anything (`NeuralCache.SaturatedStepFails`). `roll` itself is modelled from its body (`TensorRoll.Roll`, `RnnModel.RollBuffer`).
- The query branch ends in a bare `raise`, after the blend. For a "flat" key the model ends the call there with `QueryAborted`, carrying the (key, next input) pairs the query loop read. A "top" or "bottom" key is two-dimensional, so the first `torch.bmm` (model.py:146) raises before the loop (`KeyNotBatched`). Every step that finds the pointer past 0 raises. A cached forward call therefore returns normally only over an empty input, or over one step taken on an empty cache (`CompletedRunIsShort`).
- The block assignment `input_cache[p:p+len] = input_1hot` raises unless the block fits or is one step long. This is checked before any slot is written (`OversizedInputRejected`). For example, a 3-slot cache with 5 tokens raises at this line. It does not saturate.
- `init_cache` and `reset_cache` allocate uninitialised tensors. The model leaves slot contents unspecified. It does not zero them.
- `init_cache` accepts any `cache_hidden_type`. A name other than "top", "bottom" or "flat" gets cell width `nhid`. `forward` then writes no key. In a cache of three or more slots it raises as soon as the pointer is past 0, because `current_hidden` was never assigned (`KeyUnbound`); in a two-slot cache the step at pointer 1 raises first, at the `roll` call. With `cache_size` 0 the pointer of such a cache can reach 1; the next step then raises at `hidden_cache[0]`. The cache invariant therefore allows pointer 1 for a zero-size cache.
- `reset_cache` before any `init_cache` sets the pointer to 0 and then raises, because `cache_hidden_type` is not yet an attribute (model.py:61-62).
- When Python raises, the changes made before the raise stay in place. The model returns the cache state as the raising step left it.

## Model

| member | source | states |
|---|---|---|
| `TensorRoll.Roll` | model.py:68-83 | defined exactly when -n <= shift <= n (otherwise a `narrow` is out of range); keeps the length; shift 0 returns the input unchanged |
| `TensorRoll.RollRight` | model.py:75-83 | for 0 < shift <= n the result is `s[n-shift..] + s[..n-shift]` |
| `TensorRoll.RollLeft` | model.py:77-83 | for -n <= shift < 0 the result is the left rotation `s[-shift..] + s[..-shift]` |
| `TensorRoll.RollMoves` | model.py:75-83 | the element at i ends at (i + shift) mod n, for shifts of either sign |
| `TensorRoll.RollUndo` | model.py:68-83 | rolling by -shift after rolling by shift gives back the original sequence |
| `RnnModel.RollBuffer` | model.py:68-83 | on a buffer: shift 0 returns the same buffer object; any other valid shift returns a fresh buffer holding the rotation |
| `OneHot.OneHotRow` | model.py:98-99 | the row for token t has width `num_embeddings`, 1 at index t and 0 elsewhere; a token outside the row is an error |
| `OneHot.OneHotRoundTrip` | model.py:98-99 | reading back the position of the 1 in a token's row gives the token |
| `OneHot.OneHotRows` | model.py:98-99 | one row per batch entry, each the row of that entry's token; an error exactly when some token is out of range |
| `OneHot.OneHotSteps` | model.py:98-99 | one block per time step, each the rows of that step's tokens; an error exactly when some token is out of range |
| `RnnConfig.NewModel` | model.py:8-39 | construction succeeds exactly when `rnn_type` is one of LSTM, GRU, RNN_TANH, RNN_RELU and tying is off or `nhid == ninp`; a bad `rnn_type` is reported before a tying mismatch; the settings are kept |
| `RnnConfig.InitHidden` | model.py:168-174 | zero state of shape (nlayers, bsz, nhid), a pair of them exactly when `rnn_type` is LSTM |
| `RnnConfig.CellOf` | model.py:12-20 | a cell kind exists exactly for LSTM, GRU, RNN_TANH and RNN_RELU |
| `RnnConfig.CacheCellWidth` | model.py:54-57 | a slot row is `nhid*nlayers` wide for "flat" and `nhid` wide for every other name, recognised or not |
| `RnnConfig.ExtractFeature` | model.py:116-126 | the cache key is the last layer for "top", the first layer for "bottom", all layers of each batch entry for "flat", and none for any other name |
| `RnnConfig.FeatureFitsCell` | model.py:54-57 | the key written for a recognised hidden type has the cell width `init_cache` chose: `nhid*nlayers` for "flat", `nhid` otherwise |
| `RnnConfig.FlatViewAsWrittenAt` | model.py:125 | as written, the "flat" key is the (nlayers, batch, nhid) state in memory order cut into `batch` rows: column j of row q holds memory entry q*nlayers*nhid + j |
| `RnnConfig.FlatViewMixesBatches` | model.py:125 | as written, the "flat" reshape puts layer 0 of two different batch entries into one row |
| `RnnConfig.FlatConcatAt` | model.py:122-126 | corrected "flat" key: entry k of layer l of batch entry b sits at column l*nhid + k of row b |
| `NeuralCache.QueryPairs` | model.py:149-153 | the query loop visits `cache_pointer` pairs; pair i is key i with the input of step i+1 |
| `NeuralCache.Step` | model.py:111-162 | one time step keeps both buffers at `cache_size` slots, keeps the pointer a slot index (at most 1 for a zero-size cache) and leaves `input_cache` alone |
| `NeuralCache.RunSteps` | model.py:101-162 | the time loop preserves the same invariant and never touches `input_cache` |
| `NeuralCache.InputFits` | model.py:100 | the slice assignment succeeds exactly when the slice covers as many slots as there are steps, after clamping its bounds to the buffer, or there is at most one step |
| `NeuralCache.WriteInput` | model.py:100 | slots p .. p+len-1 receive the one-hot blocks when they all exist; every other slot keeps its value |
| `NeuralCache.Forward` | model.py:95-162 | a cached forward call keeps the cache size and the pointer bound |
| `NeuralCache.AdvanceOnlyFromEmpty` | model.py:111-162 | a step returns normally exactly when it starts at pointer 0 in a cache of two or more slots (or in a zero-size cache with no key); the pointer becomes 1 and the key is in slot 0 |
| `NeuralCache.SaturatedStepFails` | model.py:111-114 | at pointer `cache_size-1` the `roll` call raises and the cache is left exactly as it was |
| `NeuralCache.QueryReadsFollowingInput` | model.py:128-153 | with a "flat" key the query runs exactly when the pointer is past 0 and short of `cache_size-1`; it reads keys 0 .. pointer-1, each with the input one step later, all at slot indices |
| `NeuralCache.BatchlessKeyQueryFails` | model.py:116-146 | with a "top" or "bottom" key, a step past pointer 0 writes its key and then raises before the query reads any pair |
| `NeuralCache.CompletedRunIsShort` | model.py:111-162 | a loop that returns normally covered no step, or one step from an empty cache |
| `NeuralCache.SecondStepOnEmptyCache` | model.py:98-157 | on an empty cache, a call over two or more tokens raises in step 1: at `roll` in a two-slot cache; for "flat" after reading one pair, the key of step 0 with the one-hot row of token 1; for "top" or "bottom" before reading it |
| `NeuralCache.OversizedInputRejected` | model.py:100 | a block of two or more steps that overruns the cache raises before any slot is written |
| `RnnModel.Model.constructor` | model.py:36-39 | a new model has the cache off |
| `RnnModel.Model.InitCache` | model.py:47-58 | the cache is on with the given settings, the pointer is 0 and the cell width is `nhid*nlayers` for "flat" and `nhid` otherwise; both buffers are newly allocated with `cache_size` slots |
| `RnnModel.Model.ResetCache` | model.py:60-66 | the pointer is 0 and both buffers are newly allocated for the new batch size; the size, hidden type, theta and lambda stay; before any `init_cache` only the pointer is reset and the call fails |
| `RnnModel.Model.QueryCache` | model.py:149-153 | the loop returns `cache_pointer` pairs, pair i being (`hidden_cache[i]`, `input_cache[i+1]`) |
| `RnnModel.Model.CacheStep` | model.py:111-162 | one loop iteration leaves the cache as `NeuralCache.Step` says, and stops the loop exactly on a query or an error; the size, hidden type, batch, cell width, theta and lambda stay |
| `RnnModel.Model.StoreInputs` | model.py:100 | the slice assignment leaves the buffers as `NeuralCache.WriteInput` says |
| `RnnModel.Model.Forward` | model.py:85-166 | with the cache off nothing changes; with it on, the new cache state and the outcome are those of `NeuralCache.Forward`; the settings, theta and lambda stay |
| `Harmonize.Classify` | scripts/harmonize.py:12-30 | a row is emitted exactly when the words agree; both streams advance exactly when they differ and the surprisal word contains "unk", or the reference word is not alphabetic or contains "eol"; otherwise only the surprisal stream advances |
| `Harmonize.AlignFrom` | scripts/harmonize.py:10-30 | the loop does not run when 10 or fewer surprisal rows remain; when it runs it stops with exactly 10 left, and only a running loop can raise |
| `Harmonize.HarmonizeRows` | scripts/harmonize.py:5-30 | popping the first row of an empty list raises; on success the surprisal list is down to its last 10 rows, or all but its first when it had at most 11 |
| `Harmonize.HarmonizeRowsLoop` | scripts/harmonize.py:5-32 | the popping loop returns the joined rows `curr_d + curr_ref` and leaves the lists as `HarmonizeRows` says, or fails as it does |
| `Harmonize.PairsAgreeOnWord` | scripts/harmonize.py:12-14 | every emitted row joins a surprisal row and a reference row with the same word |
| `Harmonize.PairsKeepStreamOrder` | scripts/harmonize.py:10-30 | the surprisal halves and the reference halves of the rows are subsequences of the two inputs, in order |
| `Harmonize.Consumption` | scripts/harmonize.py:10-30 | each iteration pops one surprisal row: the loop ends with exactly 10 left if it ran, the reference list loses no more rows than the surprisal list, and rows emitted <= iterations |
| `Harmonize.LongReferenceNeverRunsOut` | scripts/harmonize.py:15-28 | when the reference list is at least as long as the surprisal list, no `pop` is ever made on an empty list |

## Left out

- The network: embedding, recurrent stacks, decoder, dropout and `init_weights` (model.py:10-21, 41-45). These are library calls and random initialisation. So are the non-cached branch of `forward` and the batched decode after the loop. `Forward` treats each of them as a call that returns normally.
- The recurrent state of each step is an input (`hs`). It is the LSTM output state h of shape (nlayers, batch, nhid).
- `RnnModel.Model.Forward`: requires an LSTM model when the cache is on. For GRU and plain RNN models `hidden[0]` is a single layer, and the key extraction raises or reshapes differently (model.py:117-126); those outcomes are not modelled.
- `RnnConfig.ExtractFeature`: for "flat" it returns the corrected key `FlatConcat`, not the `view` the source computes (model.py:125); see Findings. Only the keys' contents differ: which steps raise and which pairs are read do not depend on them.
- The tensor shapes inside the query loop (model.py:149-153): `cache_query` is (batch, vocabulary) and each term added to it is (batch, vocabulary, 1). Whether that in-place `+=` is accepted depends on the torch version's broadcasting rules. The model takes every iteration of the loop to run and ends the call at the closing `raise`.
- The kernel scores `exp(theta * bmm(...))`, the cache vote and the blend with the decoder output are floating point. A query is described by the pairs it reads.
- The debug `print`s and CUDA allocation.
- Broadcasting of the batch and vocabulary dimensions in `input_cache[p:p+len] = input_1hot`. The batch size of the input is taken to match the cache's batch size. Only the time dimension is checked.
- `roll`'s axis argument and its normalisation: the model rotates the sequence of slices along the chosen axis.
- Slot contents after `init_cache` / `reset_cache`: the tensors are uninitialised memory and the model says nothing about them.
- `cache_theta` and `cache_lambda` are stored but are only used by the floating-point blend.
- Argument errors raised inside torch (negative sizes, `nlayers` of 0) are not modelled.
- `Harmonize.IsAlpha`: only ASCII letters count as alphabetic, whereas Python's `str.isalpha` accepts every Unicode letter.
- Harmonize rows are tuples of text fields. A word field that is not a string (pandas reads an empty cell as NaN) would raise a TypeError. That error is not modelled.
- `harmonize` (scripts/harmonize.py:35-58), which reads and writes CSV through pandas and names the columns.
- `Harmonize.HarmonizeRowsLoop`: `pop(0)` shortens the caller's lists in place. The model returns what is left of them instead. The state of those lists after an error is not stated.

## Findings

| source | as written | input that shows it | evidently intended | confidence | as-written member | corrected member |
|---|---|---|---|---|---|---|
| model.py:125 | the "flat" key is `hidden[0].view(batch, -1)`, which reinterprets the (nlayers, batch, nhid) state in memory order without moving the batch axis first | nlayers = 2, batch = 2, nhid = 1, h = [[[1],[2]],[[3],[4]]]: row 0 becomes [1, 2], which is layer 0 of both batch entries | row b holds every layer of batch entry b: [1, 3] and [2, 4] | high; not executed | `RnnConfig.FlatViewMixesBatches` | `RnnConfig.FlatConcatAt` |

The cache model stores the corrected key (`RnnConfig.FlatConcat`).
