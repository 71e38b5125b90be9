# Willamette: a verified model of the inference engine

This project models the parts of the Willamette engine whose correctness is an argument rather
than a reading: several different loops that must compute one thing, state that must survive
failure and cancellation, bytes that must come back as they were written. Each file is one
module; `dafny verify dfyconfig.toml` checks them all.

**One computation, three schedules** (`Transformer`, `Schedules`, `KvCache`, `Absmax`,
`CacheRuns`, `CachedForward`, `NoCacheForward`, `Generate`, `Textbook`). A forward pass exists
as a recomputation of the whole context, as one token at a time over a quantised key/value
cache, and layer by layer over whole prompt chunks. `Transformer` writes all three as functions
over a carrier of uninterpreted float operations, so that equality means equality bit for bit;
the lemmas turn one schedule into another by interchanging the loops over layers and tokens. The
methods overwrite workspaces and append to a mutable cache as the program does, and are proved
against those functions, rollback on failure included. `Absmax` is the real absmax quantiser
with its error; `CacheRuns` runs a cache of it through any operations and bounds what a
read-back can be off by. `Textbook` says what all of it computes in the formulas transformers
are known by: attention head by head, and the residual states as the one solution of the layer
equations.

**A chat turn as a transaction** (`Utf8`, `ChatStream`, `ChatText`, `ChatEngine`,
`ChatProtocol`). The stream turns token bytes into text without showing half a character or a
fabricated turn marker. The engine is a class over cache, sampler, position and history; its
invariant is that the cache is exactly the concatenation of the committed turns. What a turn
does is also written as a function of everything it starts from (model, sampler policy,
tokenizer, the cancel flag at each poll), the methods are proved equal to it, and its promises
are proved of that function. `ChatText` says what reply a list of tokens makes, and how much of
it has been shown at any moment, without the stream's bookkeeping. `ChatProtocol` is the state
machine of the two threads around it.

**Files** (`GgufBytes`, `Gguf`, `GgufPrint`, `GgufSynth`, `GgufLink`, `GgufArtifact`,
`GgufOutput`, `GgufForm`). A byte-level parser, a printer and the linker that lays every tensor
out anew and patches the directory: parse after print is the identity, and parse after link is
the same model with the embedding in six bits, row for row. `GgufForm` fixes the format itself:
value encodings, the table of tensor sizes, one whole file byte by byte.

**Quantised kernels** (`Bits`, `I2s`, `I2sInt`, `I2sActivations`, `I2sSparse`, `KLanes`, `Q8K`,
`Q6K`, `Q6KFloat`, `Q6KQ8`, `Q4KQ8`, `Q4KTiled`, `RowWeights`, `PackedTernary`). Scalar,
table-driven, sparse, SSE2, AVX2 and NEON loops over packed weights compute the same products:
exactly over integers with the machine's wrap-around and saturation written out, exactly over
the reals where the source reorders float sums, and operation for operation where it does not.
`Bits` ties the shifts and masks on bytes to the arithmetic the layouts are stated in.
`RowWeights` and `PackedTernary` give every weight straight from its bits, and every kernel's
result as the plain sum of weight times input.

**Two algorithms** (`EditDistance`, `Bpe`). Two-row edit distance against edit scripts, and
byte-pair merging against its definition.

## What turned out not to hold as it stands

- Prefill rejects a non-finite hidden state of the chunk's last token; the single-token forward
  does not look. The two therefore agree exactly where that state is finite
  (`Schedules.PrefillIsTokenRun`; `Schedules.PrefillRefuses` is a model where they differ), and
  for a prompt cut into chunks where it is finite at every boundary
  (`Schedules.ChunksAreTokenRun`).
- The no-cache forward also rejects a residual stream that is not finite between the two halves
  of a layer. The cached forward does not: `Schedules.NoCacheRefuses` is a model where that
  shows. `Schedules.CachedIsNoCache` and `Schedules.LosslessCache` give the exact condition, and
  `Generate.GreedyAgree` what the two differences come to for whole generations: when exactly
  one of the generators fails.
- The recorded reply of a finished turn can lack whitespace the caller has already been shown
  before a marker was found; nothing else differs (`ChatStream.DriveIsHonest`).
- An Esc pressed before the worker begins the turn is cleared when it begins:
  `ChatProtocol.EarlyEscIsLost` is such a run. In every run the next poll of the turn answers it
  if and only if the worker was running that turn at the press (`ChatProtocol.EscIsSeen`), and
  an Esc after the last poll is answered by none (`ChatProtocol.EscIsTooLate`).
- Resetting a conversation leaves what the sampler has observed (`ChatEngine.ChatEngine.Reset`).
- The linker refuses an accepted source in one case, a new layout that does not fit 64-bit
  offsets (`GgufArtifact.BuildPlan`). That cannot happen when the source's tensor offsets are
  aligned (`GgufOutput.AlignedSourcesLink`), nor, aligned or not, when the source's length and
  an alignment for every tensor but one fit 64 bits (`GgufOutput.ShortSourcesLink`).
- The reader rejects two tensors at one offset, so an empty tensor before another cannot be read
  back (`GgufPrint.EmptyTensorIsLost`); a printed file parses if and only if no tensor but the
  last is empty (`GgufPrint.PrintParse`).
- The sparse builder checks the width alone and keeps row offsets in 32 bits: every row's slice
  is that row if and only if there are fewer than 2^32 entries (`I2sSparse.SlicesAreRows`). For
  an accepted dense matrix beyond that the last row is walked as empty
  (`I2sSparse.LastRowIsLost`) and its product comes out as 0 (`I2sSparse.LastProductIsLost`).
  The products agree with the dense ones for all activations if and only if the weight has fewer
  than 2^32 non-zero values (`I2sSparse.SparseIsDense`).
- The SSE2 kernel accepts packed data that runs on past the last row; the scalar and NEON
  kernels do not.

## Model

| member | source | states |
|---|---|---|
| Transformer.LayerMajorIsTokenMajor | src/model/cached_forward.rs:292-495 | for every model, token list, position and stores within capacity, running a chunk layer by layer gives exactly the hidden state and stores (or the failure) of running its tokens one by one through all layers; no float law is used |
| Transformer.BatchSnoc | src/model/cached_forward.rs:315-480 | one layer over a chunk with one more token is that layer over the chunk, then the single-token layer on the store it left: the interchange step of one layer |
| Transformer.LayersSnoc | src/model/cached_forward.rs:292-495 | the interchange step over all layers: the chunk layer-major, then the last token's column |
| Transformer.FinishAllLocal | src/model/cached_forward.rs:367-400 | rows appended to the store after a token's own do not reach that token's attention: only the first base + i + 1 rows matter |
| Schedules.PrefillIsTokenRun | src/model/cached_forward.rs:292-495 | prefill of a non-empty chunk succeeds exactly when the token-by-token run succeeds with a finite last hidden state, and then with the same hidden state and stores; the finiteness condition is the check only prefill makes |
| Schedules.PrefillRefuses | src/model/cached_forward.rs:292-495 | a one-layer model whose single-token forward returns a hidden state that prefill rejects |
| Schedules.RunSplit | src/model/cached_forward.rs:528-569 | running a concatenation is running its parts one after the other |
| Schedules.ChunksAreTokenRun | src/chat/engine.rs:715-750 | for every way of cutting a prompt into non-empty chunks, prefilling chunk after chunk equals the token run, exactly when the hidden state at each chunk boundary is finite; so two cuttings that succeed agree |
| Schedules.RunExtends | src/model/cached_forward.rs:528-569 | a successful run appends one row per token to every layer, within capacity, and changes no earlier row |
| Schedules.ColumnExtends | src/model/cached_forward.rs:528-569 | one token through all layers appends exactly one row to each of them |
| Schedules.CachedIsNoCache | src/model/multi_forward.rs:49-243 | the causal forward over a whole context, with each key and value passed through quantise and dequantise, equals the cached token run of that context; it fails where the run fails and where its own extra mid-layer finiteness check fails, and nowhere else |
| Schedules.LosslessCache | src/model/multi_forward.rs:49-243 | when quantise then dequantise is the identity on the model's keys and values, the plain no-cache forward equals the cached token run, under the same exact failure condition |
| Schedules.NoCacheRefuses | src/model/multi_forward.rs:49-243 | a one-layer model with a lossless cache that both cached schedules run and the no-cache forward rejects between the half layers |
| Schedules.LayersWithoutCache | src/model/multi_forward.rs:87-235 | the same agreement layer by layer, from any layer on |
| Textbook.AttendIsByHeads | src/model/primitives.rs:377-379 | output j of query head h is the softmax of that head's own scaled inner products with slice g of the keys, weighting column j of slice g of the values, where g is the group with g x size <= h < (g + 1) x size: one head at a time, no offset computed |
| Textbook.HeadsAreLocal | src/model/cached_forward.rs:839-872 | keys and values that agree on the columns g x headDim to (g + 1) x headDim of each row give the heads of group g equal outputs, whatever stands in the other columns |
| Textbook.RunIsTable | src/model/cached_forward.rs:528-569 | the transformer declaratively: a run of a token list from an empty cache is a solution of the layer equations (norm, project, rotate, quantise and read back, attend, project, add; norm, gate activated times up, project, add) that starts from the embeddings; its hidden state is the normed last state, and row p of layer l's store is the quantised rotated key and value of that layer's state of token p |
| Textbook.TableIsRun | src/model/cached_forward.rs:528-569 | every solution of the layer equations is such a run, so there is no more than one; with the row before, a run succeeds exactly when a solution exists and the cache has room |
| Textbook.FinishSolves | src/model/cached_forward.rs:783-933 | one layer's output solves the layer equations of its inputs |
| Textbook.SolvesFinish | src/model/cached_forward.rs:783-933 | and the layer equations have no other solution |
| Textbook.NoCacheIgnoresCodec | src/model/multi_forward.rs:49-243 | the plain forward over a context is the same whatever codec a cache would have used: its attention sees keys and values as they were computed |
| KvCache.KVCache.TryNew | src/model/kv_cache.rs:67-124 | refused exactly when the capacity times the width overflows the address space; otherwise a valid cache of those dimensions with every layer empty |
| KvCache.KVCache.ValidateAppend | src/model/kv_cache.rs:142-190 | appending is allowed exactly when layer count and width match the model, all layers are in sync, no size overflows and the new length fits; the answer is the position |
| KvCache.KVCache.Append | src/model/kv_cache.rs:204-241 | refused exactly for a bad layer, a wrong width or a full layer, leaving the buffers alone; otherwise adds exactly the quantised key and value as one row of that layer and touches no other |
| KvCache.KVCache.ReadInto | src/model/kv_cache.rs:242-271 | the flat dequantised buffers, cut into rows, are the stored rows read back, for a layer that exists and only then |
| KvCache.KVCache.Rollback | src/model/kv_cache.rs:191-203 | every layer, whatever its length, is cut to the checkpoint's position and keeps its earlier rows |
| KvCache.KVCache.Reset | src/model/kv_cache.rs:272-282 | every layer is empty again |
| KvCache.KVCache.ResidentBytes | src/model/kv_cache.rs:283-294 | the sum of the layers' bytes; with all layers at n positions it is layers x n x (2 x width + 8) |
| KvCache.SyncedBytes | src/model/kv_cache.rs:283-294 | the byte formula for any number of in-sync layers |
| KvCache.RowsAppend | src/model/kv_cache.rs:204-241 | pushing a vector's codes and scale onto the flat buffers is appending one row |
| KvCache.RowsTruncate | src/model/kv_cache.rs:191-203 | truncating codes and scales separately, by position times width and by position, is truncating the rows |
| KvCache.DequantisedRows | src/model/kv_cache.rs:242-271 | element i of the flat read-back uses the scale of position i / width: row by row it is the stored row dequantised |
| Absmax.AppendQuantised | src/model/kv_cache.rs:295-309 | the two loops push exactly the absmax codes and one scale, zero vectors with scale 0 |
| Absmax.CodeError | src/model/kv_cache.rs:295-309 | over the reals a code read back is within absmax / 254 of its value |
| Absmax.RowError | src/model/kv_cache.rs:295-309 | the same for every element of any vector, the zero vector included |
| Absmax.AbsMaxIsReached | src/model/kv_cache.rs:295-309 | the absmax of a vector that is not empty is the size of one of its elements |
| Absmax.LargestIsExact | src/model/kv_cache.rs:295-309 | an element of largest size has code 127 or -127, by its sign, and reads back as itself |
| Absmax.ZerosAreStored | src/model/kv_cache.rs:295-309 | a vector of zeros is stored with codes 0 and scale 0 |
| CacheRuns.Perform | src/model/kv_cache.rs:191-282 | each operation of the cache object, refusals included, is one step of such a run |
| CacheRuns.PerformAll | src/model/kv_cache.rs:191-282 | so any sequence of operations on the object leaves in it what the run says |
| CacheRuns.RunHolds | src/model/kv_cache.rs:133-309 | after any sequence of appends (of any width, to any layer), rollbacks and resets the stores are the quantised originals that survive, in order |
| CacheRuns.ReadBackError | src/model/kv_cache.rs:133-309 | hence after any such sequence every surviving vector has the cache's width and each of its elements reads back within absmax / 254 of the value appended for that token and layer |
| CacheRuns.RollbackUndoesAppends | src/model/kv_cache.rs:133-241 | rolling back to an in-sync checkpoint undoes any partial set of per-layer appends made since |
| CacheRuns.SurvivorsAreLastWritten | src/model/kv_cache.rs:133-282 | after any run, a position of a layer is filled if and only if some append wrote it that no later reset or rollback cut off, and it holds the vectors of that append; positions are counted from lengths alone |
| CachedForward.DotF32 | src/model/cached_forward.rs:193-206 | the loop accumulates products left to right, in the order the specification fixes |
| CachedForward.ScaledDotProductAttention | src/model/cached_forward.rs:839-872 | the head, row and element loops over flat cached buffers compute grouped-query attention over exactly the rows read, each head on its own shared key and value slice |
| CachedForward.ProjectQkvAndAppend | src/model/cached_forward.rs:729-782 | projects, rotates by position and appends one row to one layer; fails exactly when the projection fails or the layer is full, then with the cache untouched |
| CachedForward.FinishOneLayer | src/model/cached_forward.rs:783-838 | attention over the rows just read, output projection, feed-forward, both residuals and the finiteness check, in the hidden buffer |
| CachedForward.ApplyFfnBlock | src/model/cached_forward.rs:873-933 | the feed-forward half with the variant's sub-norm, or its failure |
| CachedForward.ForwardOneLayer | src/model/cached_forward.rs:709-728 | one layer of one token refines the layer step on that layer's store and extends, never rewrites, the other stores |
| CachedForward.ForwardLayers | src/model/cached_forward.rs:528-569 | the layer loop over a mutable cache and a reused hidden buffer computes the column of the token through all layers |
| CachedForward.ForwardWithCache | src/model/cached_forward.rs:528-569 | for every in-sync cache: output and cache are those of the token forward exactly when the cache matches, the position is the cache's and the forward runs; on any failure, at any layer, the cache is what it was |
| CachedForward.RollbackRestores | src/model/cached_forward.rs:528-569 | cutting layers that have grown unevenly back to their common length restores them |
| CachedForward.AttendChunk | src/model/cached_forward.rs:374-400 | every token of a prefill chunk attends to its own growing window of one shared buffer |
| CachedForward.PrefillProject | src/model/cached_forward.rs:316-365 | norms, projects and rotates a whole chunk and appends every token, in order; fails, touching nothing, exactly when some token does not project |
| CachedForward.PrefillAttend | src/model/cached_forward.rs:374-415 | attention half of every token of the chunk, over reused workspace rows |
| CachedForward.PrefillFfn | src/model/cached_forward.rs:416-478 | feed-forward half of every token of the chunk, over reused workspace rows |
| CachedForward.PrefillFinish | src/model/cached_forward.rs:374-478 | both halves together are the specification's finishing pass, succeeding exactly when every token does |
| CachedForward.PrefillLayer | src/model/cached_forward.rs:315-480 | one prefill layer refines the batched layer on that layer's store |
| CachedForward.PrefillLayers | src/model/cached_forward.rs:315-480 | the layer loop refines the layer-major run |
| CachedForward.PrefillChecked | src/model/cached_forward.rs:292-495 | prefill of checked inputs returns the last token's hidden state and the grown stores, or restores the entry cache |
| CachedForward.PrefillWithCache | src/model/cached_forward.rs:292-495 | for every in-sync cache and any tokens: succeeds exactly when the inputs validate and the chunk runs to a finite hidden state; on any failure the cache is what it was on entry |
| NoCacheForward.ContextLayerForward | src/model/multi_forward.rs:88-235 | the two passes over the tokens of a context, attention then feed-forward, are the context layer, with its mid-layer finiteness check |
| NoCacheForward.MultiTokenForward | src/model/multi_forward.rs:49-243 | the nested loops over layers and tokens compute the causal forward of the whole context, failing exactly when it does or the context is longer than a 32-bit position |
| NoCacheForward.AttendRows | src/model/multi_forward.rs:134-160 | attention over per-token vectors is the same grouped-query attention as over the flat cache |
| Generate.GreedyGenerateNoCache | src/model/generate.rs:89-143 | returns the ids of recomputing the context for every token, stopping at the end token, or the failure |
| Generate.GreedyGenerateWithCache | src/model/generate.rs:145-222 | returns the ids of decoding from the cache after one prefill, the last id not forwarded, or the failure |
| Generate.DecodeLoop | src/model/generate.rs:181-222 | the predict, emit, forward loop from a prefilled cache |
| Generate.ContextLoop | src/model/generate.rs:110-143 | the recompute, predict, append loop |
| Generate.GreedyAgree | src/model/generate.rs:89-222 | with a lossless cache the two generators return the same ids whenever both succeed; where the plain one succeeds the cached one fails exactly when the capacity fails its checks, the prompt does not run or its hidden state is not finite (and a prompt that was needed for a token runs); where the cached one succeeds the plain one fails exactly when a residual between two half layers is not finite |
| Generate.GreedyIds | src/model/generate.rs:89-222 | of what either generator returns: each id is the prediction from the forward of the prompt and the ids before it, none is the end token, there are at most the number asked for, and fewer only because the prediction after the last is the end token |
| Generate.ContextIsGreedy | src/model/generate.rs:110-143 | from any context on, the recomputing generator returns a list exactly when it is that greedy list |
| Generate.CacheIsGreedy | src/model/generate.rs:181-222 | from any prefilled cache on, so does the cached one, for predictions from token runs |
| Generate.ContextAgreesWithCache | src/model/generate.rs:89-222 | without losslessness, from any point of a generation: the round-tripped recomputation returns what the cached generator returns, ids or failure, except that it also fails when a residual between two half layers of some context is not finite |
| Generate.LosslessContext | src/model/generate.rs:89-143 | with a lossless cache, recomputing with round-tripped keys and values changes no id |
| Generate.BudgetRulesOutCapacity | src/model/generate.rs:363-403 | capacity decides only whether the checks pass: where they do, the cached generator's outcome, ids or failure, is that of a cache of any size holding the prompt and the generated positions, without bound by context or address space; so no accepted run ever meets a full cache |
| Generate.RoomIsRoom | src/model/generate.rs:145-222 | prefill and decode give the same outcome in any two caches with room for the budget, even one with exactly that room |
| Utf8.DecodeEncode | src/chat/engine.rs:944-970 | decoding inverts encoding for every text (UTF-8 of section 4 of RFC 3629) |
| Utf8.ValidPrefixIsEncoded | src/chat/engine.rs:944-970 | the longest valid prefix is the encoding of its characters |
| Utf8.LongestValidPrefix | src/chat/engine.rs:944-970 | no longer prefix is the encoding of any text |
| Utf8.DecodeMore | src/chat/engine.rs:944-970 | decoding may resume at the end of the valid prefix when more bytes arrive |
| ChatStream.FindOne | src/chat/engine.rs:291-306 | finds the leftmost occurrence of one marker or reports that there is none |
| ChatStream.FindChatStopSequence | src/chat/engine.rs:291-306 | the scan over all markers keeps the smallest position at which any marker starts |
| ChatStream.TokenBoundariesDoNotShow | src/chat/engine.rs:944-970 | for every way of cutting the decoded bytes into tokens, the reply is the emoji-free text of the longest valid UTF-8 prefix of all the bytes |
| ChatStream.MarkerAfterFlushed | src/chat/engine.rs:975-1000 | a marker that appears when text is added starts at or after everything already delivered, because the look-ahead exceeds every marker |
| ChatStream.PrefixHasNoMarker | src/chat/engine.rs:291-316 | a prefix of marker-free text is marker-free |
| ChatStream.BeforeFirstMarker | src/chat/engine.rs:291-316 | text up to the first marker, however much of it, holds none |
| ChatStream.ReplacementAddsNoMarker | src/chat/engine.rs:915-943 | the replacement character for a cut-off code point completes no marker |
| ChatStream.FlushKeeps | src/chat/engine.rs:975-990 | delivering up to the safe window keeps the stream invariant |
| ChatStream.TokenKeeps | src/chat/engine.rs:944-970 | taking in a token's bytes keeps it, as long as no marker has appeared |
| ChatStream.FinalizeShown | src/chat/engine.rs:915-943 | at the end the held-back text is delivered from exactly where delivery stopped |
| ChatStream.FinalizeCut | src/chat/engine.rs:308-316 | after a cut at a marker nothing of the marker is delivered, and recorded and delivered text differ only in whitespace already shown and then trimmed |
| ChatStream.DriveIsHonest | src/chat/engine.rs:803-943 | for every script of rounds (cancel, errors, stop tokens, any bytes): no BitNet turn delivers a marker; a failed turn's recorded text is exactly what was delivered; a finished one's is what was delivered up to trimmed whitespace |
| ChatStream.DriveAfterRounds | src/chat/engine.rs:803-894 | the decode loop may be cut after any rounds that continue and resumed from their stream |
| ChatText.RoundsAreText | src/chat/engine.rs:821-894 | while the loop goes on the reply is the emoji-free text of all token bytes so far, and everything of it but its last 24 bytes has been delivered: as long a part as ends on a character outside them, or nothing |
| ChatText.LoopGoesOn | src/chat/engine.rs:821-882 | the loop goes on over exactly the steps that are tokens whose forward succeeds and that, where markers are looked for, complete none |
| ChatText.ReplyIsAllText | src/chat/engine.rs:803-943 | a loop that ends by itself, at a stop token or cancelled records and delivers all of the text, with one replacement character if the bytes end inside a character |
| ChatText.ReplyIsCutText | src/chat/engine.rs:308-316 | the token that completes a marker ends the reply: recorded is the text before the first marker without the whitespace that led up to it |
| ChatText.MarkersAreThese | src/chat/engine.rs:219-244 | the positions at which a marker starts, spelled out |
| ChatText.MarkerIsFound | src/chat/engine.rs:291-306 | a marker is found whatever stands before and after it |
| ChatText.StripTakesEmojiOnly | src/chat/engine.rs:283-285 | stripping leaves no emoji and leaves a text without emoji alone |
| ChatText.EmojiAreThese | src/chat/engine.rs:260-281 | pictographs, flags and their joiners are emoji; scripts and punctuation below the arrows and the unified ideographs are not |
| ChatText.EncodedExamples | src/chat/engine.rs:944-970 | one character of each width is encoded as the table of section 3 of RFC 3629 gives it |
| ChatEngine.ChatEngine.TryNew | src/chat/engine.rs:368-405 | refused exactly when the cache would exceed the model's context or the address space, or a chat model's tokenizer lacks the turn markers; otherwise a valid engine with an empty history |
| ChatEngine.StoresAfterMore | src/chat/engine.rs:715-750 | running more tokens on the stores of a stream gives the stores and hidden state of the longer stream |
| ChatEngine.ChatEngine.PrefillChunk | src/chat/engine.rs:723-740 | one chunk goes in exactly when the longer token stream runs to a finite hidden state; otherwise the cache is untouched |
| ChatEngine.ChatEngine.PrefillPromptTokens | src/chat/engine.rs:715-750 | polls before each chunk of 32, prefills and lets the sampler observe it; where it stops, after how many tokens and polls, and the hidden state handed on are a stated function of the token stream; the position moves only when all of the prompt is in |
| ChatEngine.ChatEngine.DecodeRound | src/chat/engine.rs:821-882 | one round: the poll, the sampler's choice from the logits of the token stream's hidden state, the stop-token test, the bytes, the forward; a token whose forward fails leaves no cache row, no observation and no generator step |
| ChatEngine.ChatEngine.StreamAssistantResponse | src/chat/engine.rs:803-894 | the decode loop is the stated decoding of its starting token stream, sampler and poll count: same steps, tokens, generator state; its text is one run of the stream over those steps; cache and sampler gain exactly the generated tokens |
| ChatEngine.DecodeBounded | src/chat/engine.rs:803-894 | a decode loop keeps at most the allowed number of tokens, a cancelled one always finishes, and one that kept nothing has delivered nothing new |
| ChatEngine.AnswerIsHonest | src/chat/engine.rs:529-667 | of the answer as a function of everything a turn starts from: recorded exactly unless refused, failed with nothing shown or cancelled before any token; no marker delivered; recorded and delivered text agree as promised; an unrecorded turn keeps the generator state |
| ChatEngine.ChatEngine.DecodeTurn | src/chat/engine.rs:585-667 | decodes and settles: undoes or commits exactly as that function says |
| ChatEngine.ChatEngine.RunTurn | src/chat/engine.rs:561-667 | checkpoint, prefill, decode, settle: the turn's answer, and either one more committed turn or the state of before |
| ChatEngine.ChatEngine.SendUserMessage | src/chat/engine.rs:529-667 | a whole turn, from any valid state: commits one turn or restores cache, position, history and sampler. A committed turn's prompt is the encoding of the text its place in the conversation asks for; history gains the question and the reply; the cache gains what running prompt and generated tokens appends, within the budget; no generated token is a stop token; the recorded reply is the text of the generated tokens' bytes up to the first marker. The answer as a whole is the stated function of the starting state |
| ChatEngine.PromptIsText | src/chat/engine.rs:680-712 | the prompt of the turn that n others precede: in BitNet text mode the first is the system prompt, if any, in front of the question and encoded with the beginning-of-text token, every later one the bridge and question alone, encoded without it, the same for every system prompt; the other template hands both to the tokenizer |
| ChatEngine.ChatEngine.TurnsArePrompted | src/chat/engine.rs:680-712 | in every valid engine each committed turn was prompted so for its own place, whatever the system prompt has become since |
| ChatEngine.ChatEngine.HistoryIsTurns | src/chat/engine.rs:529-667 | in every valid engine the history is the questions and replies of the committed turns in order |
| ChatEngine.AnswerHasNoStop | src/chat/engine.rs:821-850 | no recorded turn's generated tokens hold a stop token of the template |
| ChatEngine.DecodeIsSampled | src/chat/engine.rs:821-850 | each generated token is the sampler's choice for the logits after the tokens before it, with the observations and generator steps those made |
| ChatEngine.AnswerIsText | src/chat/engine.rs:803-943 | the recorded reply of a finished turn is the text of the bytes of the tokens taken in, up to the first marker where markers are looked for |
| ChatEngine.PrefillPolls | src/chat/engine.rs:715-750 | a prompt that goes in whole has polled the cancel flag once for every 32 tokens begun |
| ChatEngine.ChatEngine.Reset | src/chat/engine.rs:487-491 | empties cache, history and position and keeps the sampler as it is |
| ChatEngine.ChatEngine.SetSystemPrompt | src/chat/engine.rs:481-485 | takes effect from the next turn and rewrites nothing |
| ChatEngine.ChatEngine.SetSampling | src/chat/engine.rs:465-480 | a fresh sampler that has observed nothing, the conversation kept |
| ChatEngine.ChatEngine.PositionAndHistory | src/chat/engine.rs:487-667 | from the invariant: the position is the cache's and at most the maximum, all layers are in sync, and the history is empty exactly when the position is 0 |
| ChatProtocol.UiState.HandleEvent | src/chat/tui.rs:502-567 | the handler's field updates are the protocol's transition for each event: chunk, position, done, failed |
| ChatProtocol.EnterKeeps | src/chat/tui.rs:682-706 | sending a message keeps the invariant |
| ChatProtocol.CommandKeeps | src/chat/tui.rs:580-618 | reset, system prompt, clear, Esc and quit keep it |
| ChatProtocol.DrainKeeps | src/chat/tui.rs:492-567 | applying the next event keeps it |
| ChatProtocol.ReceiveKeeps | src/chat/tui.rs:342-381 | the worker taking a command keeps it |
| ChatProtocol.TurnKeeps | src/chat/engine.rs:121-155 | the worker's begin, poll, advance and end steps keep it |
| ChatProtocol.EmitKeeps | src/chat/tui.rs:342-381 | sending a chunk of text keeps it |
| ChatProtocol.PositionKeeps | src/chat/tui.rs:354-357 | sending the turn's position, the first of the worker's two sends, keeps it |
| ChatProtocol.ReportKeeps | src/chat/tui.rs:358-367 | sending its result, the second, keeps it, whatever the interface did in between |
| ChatProtocol.StepKeeps | src/chat/tui.rs:342-381 | every step of either thread keeps it |
| ChatProtocol.ExecInv | src/chat/tui.rs:342-706 | it holds after every interleaving of the two threads' steps |
| ChatProtocol.TurnIsInOnePlace | src/chat/tui.rs:342-706 | in every reachable state, queued messages plus a running turn plus undrained results total 1 while the interface says generating and 0 otherwise |
| ChatProtocol.LogHoldsWholeTurns | src/chat/tui.rs:502-567 | in every reachable state a logged reply is all the text of exactly one turn, and no two replies share a turn |
| ChatProtocol.WholeTextShown | src/chat/tui.rs:502-567 | when a result is drained all of its turn's text has been shown, and nothing is queued behind it |
| ChatProtocol.ReplyIsLogged | src/chat/tui.rs:516-567 | in every reachable state, draining a finished turn adds one last line by the bot that holds all the text the turn sent, unless it was cancelled before any token; draining a failed one does so exactly when it had sent text |
| ChatProtocol.ExchangeIsLogged | src/chat/tui.rs:342-706 | from any quiet state a question and the pieces of its reply leave two more lines in the log, the question and the pieces joined in order, the engine's position on screen, and a quiet state |
| ChatProtocol.ConversationIsLogged | src/chat/tui.rs:342-706 | after any number of exchanges the log is all questions and replies, alternating and in order |
| ChatProtocol.QuietPositionsAgree | src/chat/tui.rs:342-381 | with both queues empty and the worker waiting, interface and engine positions agree |
| ChatProtocol.StaleCancelIsHarmless | src/chat/engine.rs:121-155 | a poll that ends a turn answers an Esc pressed for that very turn, never an earlier one |
| ChatProtocol.CancelledTurnTakesItsQuestionBack | src/chat/tui.rs:516-552 | a turn cancelled before any token removes its own question from the log and nothing else |
| ChatProtocol.EarlyEscIsLost | src/chat/engine.rs:121-136 | an Esc pressed before the worker begins the turn is cleared by the begin and the turn runs on; the same Esc after the begin cancels it |
| ChatProtocol.EscIsSeen | src/chat/tui.rs:604-618 | over runs: after any reachable state, an Esc and any continuation without a second one, the next poll of the turn on screen ends it as cancelled if and only if the worker was running it at the press |
| ChatProtocol.EscIsTooLate | src/chat/tui.rs:604-618 | over runs: an Esc pressed when the turn is no longer queued, starting or running is followed by no poll of that turn at all |
| EditDistance.Levenshtein | src/chat/tui.rs:850-870 | the two swapped row arrays compute the recursive edit distance, for all inputs |
| EditDistance.FillRow | src/chat/tui.rs:857-868 | one pass turns the row of one prefix into the row of the next |
| EditDistance.Cell | src/chat/tui.rs:857-868 | a cell is the least of its three neighbours' costs |
| EditDistance.DistanceIsLowerBound | src/chat/tui.rs:850-870 | no edit script is cheaper than the distance |
| EditDistance.DistanceIsAttained | src/chat/tui.rs:850-870 | some edit script costs exactly the distance |
| EditDistance.DistanceIsMinimum | src/chat/tui.rs:850-870 | the distance is the minimum cost of an edit script |
| EditDistance.Symmetric | src/chat/tui.rs:850-870 | the distance is symmetric |
| EditDistance.ZeroIffEqual | src/chat/tui.rs:850-870 | it is 0 exactly for equal texts |
| EditDistance.Compose | src/chat/tui.rs:850-870 | two scripts in a row compose to one that costs no more than both |
| EditDistance.TriangleInequality | src/chat/tui.rs:850-870 | the triangle inequality |
| EditDistance.DistanceOne | src/chat/tui.rs:850-870 | the distance is 1 if and only if the texts differ by one character put in, taken out or replaced |
| Bpe.FindBest | src/tokenizer/bpe.rs:29-44 | finds the leftmost pair of lowest rank, or that no pair has a rank below the largest 32-bit value |
| Bpe.EncodeWord | src/tokenizer/bpe.rs:23-61 | terminates with the word that merging the leftmost lowest-ranked pair for as long as there is one leads to |
| Bpe.RunIsUnique | src/tokenizer/bpe.rs:23-61 | there is one sequence of merges for a word |
| Bpe.EncodingIsUnique | src/tokenizer/bpe.rs:23-61 | so the encoding is a function of word and ranks |
| Bpe.Idempotent | src/tokenizer/bpe.rs:23-61 | a result has no mergeable pair left and encodes to itself only |
| Bpe.EncodingKeepsText | src/tokenizer/bpe.rs:23-61 | merging never changes the concatenated text nor adds symbols |
| Bpe.OnlyRankOrderMatters | src/tokenizer/bpe.rs:23-61 | two rank tables that order the mergeable pairs alike encode alike |
| Bpe.CutWordEncodesInParts | src/tokenizer/bpe.rs:23-61 | where no merge crosses a cut, the word encodes as its two parts do |
| Bpe.ThreeSymbols | src/tokenizer/bpe.rs:23-61 | what any three symbols come to, by the entries of the rank table alone: the lower-ranked pair is merged, of equal ones the left, and the result with the third symbol if that has a rank; an entry of the largest 32-bit value never merges |
| Bits.LowNibble | src/model/q6_k.rs:63-77 | masking a byte with 15 is its remainder by 16, over the eight bits of the machine |
| Bits.Shifts | src/model/q6_k.rs:63-77 | shifting a byte right by 2, 4 or 6 divides it |
| Bits.NibblesJoin | src/model/q6_k.rs:63-77 | a nibble or-ed with one shifted up four is their sum, no bit meeting another |
| Bits.PairsJoin | src/model/q6_k.rs:271-290 | so are four pairs of bits shifted to their places |
| I2s.ColumnsAreCounted | src/model/bitlinear.rs:204-233 | (block, byte, code) to 128 x block + byte + 32 x code is a bijection onto the columns, inverse given |
| I2s.CodesOfByte | src/model/bitlinear.rs:204-233 | a byte is its four two-bit codes |
| I2s.CodeIsShifted | src/model/bitlinear.rs:204-233 | each code is what the kernels' shift and mask read |
| I2s.ByteOfCodes | src/model/bitlinear.rs:204-233 | four codes make one byte and are read back from it |
| I2s.UnpackAt | src/model/bitlinear.rs:248-298 | each column of an unpacked row is the code its place names |
| I2s.UnpackBlockInto | src/model/bitlinear_sse2.rs:183-204 | the block loop writes the four lanes side by side and nothing before them |
| I2s.UnpackRow | src/model/bitlinear.rs:285-298 | unpacking a row in place gives its ternary values in column order |
| I2s.BlockInColumnOrder | src/model/bitlinear.rs:204-233 | a block's product taken byte by byte is its product in column order, over the reals |
| I2s.ScalarRow | src/model/bitlinear.rs:208-232 | the two accumulators' difference is the exact product of the row |
| I2s.MatvecScalar | src/model/bitlinear.rs:146-233 | accepts exactly matching shapes, exact packed length and a finite scale, leaving the output alone otherwise; each output is scale times the row's product |
| I2s.BuildTable | src/model/bitlinear_lut.rs:87-118 | entry b is what byte b would add, for each of the 256 bytes |
| I2s.AddColumnByte | src/model/bitlinear_lut.rs:119-125 | one byte position of every row goes through the table, all other outputs unchanged in order |
| I2s.LookupBlock | src/model/bitlinear_lut.rs:85-126 | the interchanged loops over one block leave every row's partial product |
| I2s.MatvecLut | src/model/bitlinear_lut.rs:59-132 | the table-lookup kernel computes the same products as the scalar one, under the same acceptance |
| PackedTernary.RowWeightIs | src/model/bitlinear.rs:204-298 | the weight of every column of every row is read off the packed bytes: byte 32 (c / 128) + c mod 32 of the row, its bit pair number c mod 128 / 32 from the top; 0, 1, 2 stand for -1, 0, 1 and 3 for 0 |
| PackedTernary.OutputIsSum | src/model/bitlinear.rs:204-247 | each output of the scalar and table kernels is the weight scale times the sum over the columns of plus, minus or none of the input |
| I2sInt.DotOfReals | src/model/bitlinear_sse2.rs:329-386 | over integer activations the exact product is the integer one |
| I2sInt.PartialSumsFit | src/model/bitlinear_sse2.rs:329-351 | up to the largest width every partial sum fits a 32-bit accumulator, bounded by 127 per column |
| I2sInt.OverflowThreshold | src/model/bitlinear_sse2.rs:329-351 | no ternary row and activations in [-127, 127] of a width overflow if and only if the width is at most 16,909,320 |
| I2sInt.SelectIsProduct | src/model/bitlinear_sse2.rs:353-386 | compare-and-mask selection with byte-sized negation is the product, given that -128 never occurs |
| I2sInt.DotI8Ternary | src/model/bitlinear_sse2.rs:353-386 | the SSE2 lane arithmetic of a 128-value block gives the integer product |
| I2sInt.Sse2Row | src/model/bitlinear_sse2.rs:329-351 | a whole row in wrapping 32-bit addition gives the wrapped integer product |
| I2sInt.NeonDot | src/model/bitlinear_neon.rs:89-112 | the NEON widening multiplies and two accumulators give the wrapped integer product |
| I2sActivations.QuantizeInputAbsmaxI8 | src/model/bitlinear_sse2.rs:285-311 | writes exactly the absmax codes to the front of the buffer, leaves the rest, returns the scale; the zero vector has scale 1 |
| I2sActivations.FindAbsmax | src/model/bitlinear_neon.rs:47-71 | the largest absolute value |
| I2sActivations.MatvecSse2 | src/model/bitlinear_sse2.rs:313-351 | accepts also longer packed data; each output is the row's 32-bit integer product by both scales |
| I2sActivations.NeonRow | src/model/bitlinear_neon.rs:123-225 | a row unpacked into the scratch buffer, then multiplied, is its integer product |
| I2sActivations.NeonChunk | src/model/bitlinear_neon.rs:203-221 | a chunk of up to 32 rows through one scratch row sets exactly its outputs |
| I2sActivations.MatvecNeon | src/model/bitlinear_neon.rs:135-225 | all rows in chunks of 32; accepts exactly what the scalar kernel does |
| I2sActivations.DotError | src/model/bitlinear_sse2.rs:285-351 | activations off by at most e each move a row's product by at most e per non-zero weight |
| I2sActivations.DotRestored | src/model/bitlinear_sse2.rs:313-351 | restoring the activations and multiplying is multiplying integers and scaling once |
| I2sActivations.ActivationError | src/model/bitlinear_sse2.rs:285-351 | over the reals, up to the largest width, the integer kernel's output is within abs(scale) x non-zeros x absmax / 254 of the exact one |
| I2sActivations.KernelsAreClose | src/model/bitlinear_neon.rs:135-225 | so each output of either vector kernel is that close to the scalar kernel's |
| PackedTernary.ActOutputIsSum | src/model/bitlinear_sse2.rs:285-386 | up to the width they do not overflow at, each output of the byte-activation kernels is that same sum of the restored activations, times the weight scale |
| PackedTernary.ActsAreNearest | src/model/bitlinear_sse2.rs:285-328 | a restored activation is within absmax / 254 of the input, exact for an input of largest size, and zeros have codes 0 and scale 1 |
| I2sSparse.AppendByte | src/model/bitlinear_sparse.rs:78-98 | appends the non-zero codes of a byte with their columns, in order |
| I2sSparse.AppendRowNonzeros | src/model/bitlinear_sparse.rs:78-98 | appends exactly a row's non-zero entries in the order its bytes are read |
| I2sSparse.FromI2s | src/model/bitlinear_sparse.rs:104-132 | builds, for exactly the accepted shapes, the rows' entries one after another with the offset of each row kept in 32 bits |
| I2sSparse.SliceOfRow | src/model/bitlinear_sparse.rs:104-132 | with fewer than 2^32 entries, the slice between two row offsets is that row's entries |
| I2sSparse.SliceIsLost | src/model/bitlinear_sparse.rs:104-132 | from 2^32 entries on some row's end offset lies below its start, and its slice is not the row |
| I2sSparse.SlicesAreRows | src/model/bitlinear_sparse.rs:104-132 | every slice is its row if and only if there are fewer than 2^32 entries |
| I2sSparse.DenseIsAccepted | src/model/bitlinear_sparse.rs:60-72 | the builder accepts a matrix of 65,665 rows of 65,408 minus ones |
| I2sSparse.LastRowIsLost | src/model/bitlinear_sparse.rs:104-132 | of that matrix the last row's end offset is below its start, though the row has 65,408 entries |
| I2sSparse.SparseDotIsDense | src/model/bitlinear_sparse.rs:142-175 | leaving out the zeros does not change a row's product |
| I2sSparse.SparseRow | src/model/bitlinear_sparse.rs:160-175 | the row loop adds each entry's activation in wrapping 32-bit arithmetic |
| I2sSparse.SparseMatvecI8 | src/model/bitlinear_sparse.rs:142-177 | for every weight the builder makes: rejects exactly mismatched lengths, leaving the output; otherwise each output is its slice's integer product by both scales, and for a weight with fewer than 2^32 non-zero values the dense row's |
| I2sSparse.SparseIsDense | src/model/bitlinear_sparse.rs:142-177 | the kernel's integers are the dense products for all byte activations and all rows if and only if the weight has fewer than 2^32 non-zero values, which can be counted beforehand |
| I2sSparse.ProductIsLost | src/model/bitlinear_sparse.rs:142-177 | beyond that, for every weight, there are a row and a unit activation where the kernel computes 0 and the row gives 1 or -1 |
| I2sSparse.StoredAreNonZeros | src/model/bitlinear_sparse.rs:104-132 | the builder stores one entry for each non-zero value of the whole weight |
| I2sSparse.LastProductIsLost | src/model/bitlinear_sparse.rs:142-177 | on that dense matrix and activations of one the kernel's last integer is 0, the row's is -65,408 |
| I2sSparse.EntriesCountNonZeros | src/model/bitlinear_sparse.rs:78-98 | a row has an entry for each non-zero weight |
| I2sSparse.EntriesHold | src/model/bitlinear_sparse.rs:78-98 | each entry holds the weight of its column |
| I2sSparse.SparseAgrees | src/model/bitlinear_sparse.rs:142-198 | on the quantised input the sparse kernel's outputs are those of the vector kernels |
| Q8K.SignedMax | src/model/q4_k.rs:78-86 | the first value of largest size (none is larger, none before it as large), and that size |
| Q8K.QuantizeGroup | src/model/q4_k.rs:92-103 | sixteen quants and their true sum, which no 16-bit step overflows; earlier quants unchanged |
| Q8K.QuantizeQ8KBlock | src/model/q4_k.rs:77-104 | the whole block: all zero for zero input; otherwise the scale of the first value of largest size, each value's own quant by that scale, and group sums that are the sums of their groups; every value is restored to within absmax / 254 |
| Q8K.LargestIsExact | src/model/q4_k.rs:92-101 | the value the scale is taken from has quant -127 and is restored exactly |
| Q8K.QuantError | src/model/q4_k.rs:77-104 | the half-step bound although the scale carries the sign of the largest value |
| Q6K.LevelsAt | src/model/q6_k.rs:63-77 | the level at each index comes from its own nibble and bit pair |
| Q6K.DecodedLevels | src/model/q6_k.rs:63-77 | the shifts and masks the decoders share give the four levels of a column |
| Q6K.UnpackBlockLevels | src/model/q6_k.rs:63-77 | the unpacking loop fills the 256 levels in order |
| Q6K.PackBlock | src/model/q6_k.rs:271-290 | the packing loops write the levels' 192 bytes, the sixteen signed scales and the two bytes of d |
| Q6K.JoinedBytes | src/model/q6_k.rs:271-290 | the packing loop's shifts and masks give the three bytes of a column |
| Q6K.UnpackPacked | src/model/q6_k.rs:63-77 | unpacking packed levels returns them, for all levels in 0..63 and whatever follows |
| Q6K.PackUnpacked | src/model/q6_k.rs:271-290 | repacking a block's levels returns its 192 level bytes, for every block: packing is a bijection |
| Q6K.UnpackPackedRow | src/model/q6_k.rs:63-77 | unpacking a row of any number of packed blocks returns each block's levels and the bytes after them |
| Q6K.PackUnpackedRow | src/model/q6_k.rs:271-290 | repacking the unpacked blocks of any row of whole blocks returns its bytes |
| Q6KFloat.BlockWeightAt | src/model/q6_k.rs:29-61 | value i is its level less 32 by the scale of its group of sixteen by d |
| Q6KFloat.DecodeColumn | src/model/q6_k.rs:29-61 | the visiting decoder's own shifts, masks and scale indices give the four weights of a column |
| Q6KFloat.DequantizeRow | src/model/q6_k.rs:91-102 | writes exactly those weights for every block, or rejects and writes nothing |
| Q6KFloat.DotRowScalar | src/model/q6_k.rs:160-172 | visiting weights in decoding order gives the row's product, over the reals |
| Q6KFloat.DecodeFour | src/model/q6_k_sse2.rs:53-82 | the SSE2 decoder's own shifts and masks read the same four levels of each lane |
| Q6KFloat.DotRowSse2 | src/model/q6_k_sse2.rs:46-116 | four accumulators over both halves of every block give the same product |
| Q6KFloat.DotRow | src/model/q6_k.rs:104-117 | the checked entry point fails exactly for a malformed row or a non-finite scale, and otherwise returns that product on either path |
| Q6KFloat.ValidateDScales | src/model/q6_k.rs:79-89 | accepts exactly the rows whose every block scale is finite |
| KLanes.MaddUbsIsExact | src/model/q6_k_simd.rs:29-63 | unsigned-by-signed byte products of small weights and activations never saturate 16 bits |
| KLanes.MaddIsExact | src/model/q6_k_simd.rs:29-63 | 16-bit products of bounded lanes never overflow 32 bits |
| KLanes.ScaledPairsExact | src/model/q6_k_simd.rs:29-63 | the two multiply-adds of 32 weights together: neither saturates nor wraps, and the lanes they leave are bounded |
| KLanes.Add32IsPlus | src/model/q6_k_simd.rs:29-63 | lane additions of bounded lanes do not wrap |
| KLanes.TwoScales | src/model/q6_k_simd.rs:29-63 | 32 lanes with two scales give the two scaled group products |
| KLanes.Reduce8IsSum | src/model/q6_k_simd.rs:29-63 | the horizontal sum of wrapping lanes is the wrapped sum |
| KLanes.Reduce8Exact | src/model/q6_k_simd.rs:29-63 | on bounded lanes no addition of the horizontal sum wraps: it is the sum |
| Q6KQ8.ScalarBlock | src/model/q6_k.rs:138-158 | the scalar block's wrapping arithmetic ends in the unbounded block integer |
| Q6KQ8.ScalarStepsFit | src/model/q6_k.rs:138-158 | no step of it overflows: products and partial sums of a group, the group sum times 32, their difference, its scaling, the running sum |
| Q6KQ8.Avx2Block | src/model/q6_k_simd.rs:29-63 | the AVX2 block, with its 32 x bsums correction, ends with the lanes and the correction that integers of any size would give, and its result is the scalar block's integer, for every block |
| Q6KQ8.LaneStep | src/model/q6_k_simd.rs:29-63 | one step of the lanes neither saturates 16 bits nor wraps 32, and adds two groups' scaled products |
| Q6KQ8.LanesFit | src/model/q6_k_simd.rs:29-63 | after k steps each lane is within 4,096,512 k, so that eight of them add up inside 32 bits, and they add up to the level sum |
| Q6KQ8.CorrectionFits | src/model/q6_k_simd.rs:29-63 | the correction after n groups is within 8,323,072 n, and each pair of scaled sums times 32 fits 32 bits |
| Q6KQ8.BlockIntIsDot | src/model/q6_k.rs:138-158 | because the group sums are true, that integer is the product of the scaled, centred levels with the quants |
| Q6KQ8.IntWeightAt | src/model/q6_k.rs:29-61 | the integer weight of each value is its group scale times its level less 32 |
| Q6KQ8.BlockIntBound | src/model/q6_k.rs:138-158 | the bound that keeps every block inside 32 bits |
| Q6KQ8.DotRowQ8Scalar | src/model/q6_k.rs:138-158 | a row of any number of blocks adds block terms in order, the float operations left uninterpreted |
| Q6KQ8.DotRowQ8Avx2 | src/model/q6_k_simd.rs:29-63 | the vector row equals the scalar row for any float rounding |
| RowWeights.Row6IsSum | src/model/q6_k.rs:138-158 | with the float operations taken as real ones, the common value of both kernels is the sum over every value of the row of d x scale x (level - 32) times its restored activation, each read off its own bits of the block |
| RowWeights.RowWeightAt | src/model/q6_k.rs:29-61 | every dequantised value of a row is that weight of its block |
| Q4KQ8.ScaleMin | src/model/q4_k.rs:136-145 | scale and minimum of each group are six-bit values |
| Q4KQ8.ScaleMinBits | src/model/q4_k.rs:136-145 | and are what the source's masks and shifts put together |
| Q4KQ8.ScalarBlock4 | src/model/q4_k.rs:295-331 | the scalar block's wrapping arithmetic ends in the unbounded scaled and minimum integers |
| Q4KQ8.ScalarStepsFit4 | src/model/q4_k.rs:295-331 | no step of it overflows: products and partial sums of a group, their scaling, the pair of group sums and its product with the minimum, both running sums |
| Q4KQ8.Avx2Block4 | src/model/q4_k_simd.rs:51-107 | the AVX2 block ends with the lanes that integers of any size would give; they add up to the scaled integer, with the same minimum integer |
| Q4KQ8.LaneStep4 | src/model/q4_k_simd.rs:51-107 | one group's step of the lanes neither saturates nor wraps, and adds the group's scaled product |
| Q4KQ8.LanesFit4 | src/model/q4_k_simd.rs:51-107 | after g groups each lane is within 480,060 g and the lanes add up to the scaled integer |
| Q4KQ8.BandQuants | src/model/q4_k_simd.rs:51-107 | the kernel's two masks give the two groups of a band |
| Q4KQ8.ShiftedAreHigh | src/model/q4_k_simd.rs:51-107 | the 16-bit shift and mask give each byte's high nibble: neither neighbours nor the sign leak |
| Q4KQ8.ScaledIntIsDot | src/model/q4_k.rs:295-331 | the scaled integer is the product of scale times quant with the activations |
| Q4KQ8.MinIntIsDot | src/model/q4_k.rs:295-331 | because the group sums are true, the minimum integer is the product of the minima with the activations |
| Q4KQ8.BlockBounds | src/model/q4_k.rs:295-331 | the bounds that keep both inside 32 bits |
| Q4KQ8.DotRow4Scalar | src/model/q4_k.rs:295-331 | a row adds its blocks' scaled values over the reals, minima subtracted |
| Q4KQ8.DotRow4Avx2 | src/model/q4_k_simd.rs:51-115 | float lanes added per block and reduced at the end give the same value over the reals |
| RowWeights.Row4IsSum | src/model/q4_k.rs:295-331 | the common value of both kernels is the sum over every value of the row of (d x scale x quant - dmin x minimum) times its restored activation, quant, scale and minimum each read off their own bits of the block |
| RowWeights.FloatRow4IsSum | src/model/q4_k_simd.rs:185-231 | with the vector operations taken as real ones, the single-row and tiled kernels' value is the sum over every value of the row of that weight times its input, at either vector width |
| Q4KTiled.DotRow4 | src/model/q4_k_simd.rs:185-231 | the single-row kernel in its fixed order of operations, at either vector width |
| Q4KTiled.TiledChunk | src/model/q4_k_simd.rs:233-296 | one chunk's weights against every token of the tile, low part then high part, is one step of each token's own accumulator |
| Q4KTiled.TiledBand | src/model/q4_k_simd.rs:233-296 | a band over the tile is that band of the single-row kernel for each token |
| Q4KTiled.DotTile | src/model/q4_k_simd.rs:233-296 | a tile of tokens gives each the single-row result, bit for bit: add and multiply are uninterpreted |
| Q4KTiled.DotRows4 | src/model/q4_k_simd.rs:383-459 | any number of tokens, in tiles of up to four, each gets the single-row result |
| Q4KTiled.Matvec4 | src/model/linear.rs:339-353 | each output is its row against the input |
| Q4KTiled.RowMajor | src/model/linear.rs:299-320 | the row-major scratch holds row j against token t at (j, t) |
| Q4KTiled.Batched4 | src/model/linear.rs:299-337 | after the transpose every token's output is what repeated matvec gives it, in its token-major place |
| GgufBytes.IntRoundTrip | src/synth.rs:161-182 | little-endian writing and reading of any width are inverse |
| GgufBytes.ReadTypedValue | src/gguf/reader.rs:567-631 | the cursor's reader of nested typed values, with its depth, count and size limits, is the value grammar |
| GgufBytes.ReadElements | src/gguf/reader.rs:611-631 | array elements pushed one by one are the grammar's elements, failing at the first bad one |
| GgufBytes.TypedLocal | src/gguf/reader.rs:567-631 | a value reads the same from any file that agrees on its own bytes |
| GgufBytes.ElemsLocal | src/gguf/reader.rs:611-631 | so do array elements |
| GgufBytes.ValueLocal | src/gguf/reader.rs:471-565 | and tagged values |
| GgufBytes.StringWritten | src/synth.rs:161-164 | a written string reads back |
| GgufForm.DigitOf | src/synth.rs:161-182 | byte i of a written integer is its i-th digit to base 256, least significant first |
| GgufForm.TypedReadsBack | src/gguf/reader.rs:567-631 | numbers of every width, booleans, strings and arrays nested up to the limit read back as written, from any place in a file |
| Gguf.ParseMetadata | src/gguf/reader.rs:163-179 | the key/value loop reads the specified pairs, later keys replacing earlier ones |
| Gguf.ParseDirectory | src/gguf/reader.rs:192-255 | the directory loop reads the specified entries and the places of their type and offset fields |
| Gguf.NextOffset | src/gguf/reader.rs:304-322 | the least offset above a given one, or that there is none |
| Gguf.SharesOffset | src/gguf/reader.rs:291-303 | whether another tensor has the same offset |
| Gguf.BuildView | src/gguf/reader.rs:285-402 | a view exists exactly when the entry's size is known, its data and scale block lie in the file and before the next tensor, and its offset is its own; it holds those very bytes |
| Gguf.ParseHead | src/gguf/reader.rs:120-275 | header, metadata, directory and data start follow one another |
| Gguf.Parse | src/gguf/reader.rs:120-414 | the reader returns exactly the specified file, or rejects, for every byte string of 64-bit length |
| Gguf.AlignUp | src/gguf/reader.rs:419-426 | the next multiple of the alignment, if 64 bits hold it |
| GgufForm.VectorSize | src/gguf/reader.rs:688-760 | the block and byte sizes of all the sized types as one table: a vector of whole blocks takes their bytes and one that ends inside a block is refused, in every type |
| GgufForm.MatrixSize | src/gguf/tensor.rs:97-265 | a matrix, in every sized type: the four types made of rows of blocks ask for rows of whole blocks and take rows times a row's bytes, the others only that all values together fill blocks |
| GgufForm.NoOtherSize | src/gguf/reader.rs:688-760 | no type outside that table has a size, whatever the shape |
| GgufForm.ElementsConcat | src/gguf/reader.rs:712-719 | the dimensions multiply, however a shape is split |
| GgufForm.ReadFileIsSound | src/gguf/reader.rs:120-275 | every file the reader takes begins with the four letters, has version 2 or 3 and at most a million tensors, and starts its data at the first multiple of its alignment after the directory |
| GgufPrint.BuildFile | src/synth.rs:406-470 | the builder's offsets, header, padding and data are the specified file |
| GgufForm.FileByteByByte | src/synth.rs:406-470 | a small file with metadata of each kind and two tensors, byte by byte: magic, version, counts, keys, types, dimensions, offsets, padding and data |
| GgufPrint.WriteMetadata | src/synth.rs:415-443 | the metadata loop writes the pairs in order |
| GgufPrint.WriteDirectory | src/synth.rs:445-453 | the directory loop writes the entries in order with their offsets |
| GgufPrint.DataStands | src/synth.rs:455-470 | every tensor's data stands at its offset in the written file |
| GgufPrint.OffsetsGrow | src/synth.rs:406-413 | offsets grow and no tensor reaches the next |
| GgufPrint.KvsWritten | src/gguf/reader.rs:163-179 | written metadata reads back, in order |
| GgufPrint.EntriesWritten | src/gguf/reader.rs:192-255 | the written directory reads back, names, shapes, types and offsets |
| GgufPrint.HeaderWritten | src/gguf/reader.rs:120-275 | the written header parses to what was written |
| GgufPrint.DistinctKeys | src/gguf/reader.rs:163-179 | with distinct keys the parsed map holds every pair |
| GgufPrint.SharedOffset | src/gguf/reader.rs:291-303 | a tensor without data has the offset of the one after it, and the reader rejects the file |
| GgufPrint.PrintParse | src/gguf/reader.rs:120-414 | parsing a written file succeeds if and only if no tensor but the last is without data, and then returns the written metadata and, for each tensor, its name, shape, type, data and scale block, with ranges in bounds and pairwise disjoint |
| GgufPrint.EmptyTensorIsLost | src/gguf/reader.rs:291-303 | two writable tensors, the first of shape [0], whose file the reader rejects |
| GgufSynth.NeverZero | src/synth.rs:199-210 | no step takes a non-zero state to zero |
| GgufSynth.NeverReachesZero | src/synth.rs:186-210 | from any seed, zero included, the generator never reaches the absorbing zero in any number of steps |
| GgufSynth.Xorshift64.NextLegalCode | src/synth.rs:211-214 | one step, then the new state modulo 3: always one of the three ternary codes |
| GgufSynth.FirstState | src/synth.rs:199-210 | the state after seed 1, which each of the three shifts takes part in |
| GgufSynth.DrawnCodes | src/synth.rs:246-266 | code k of drawn byte b, from the high bits down, is that of state number 4 b + k + 1 |
| GgufSynth.ZeroWeights | src/synth.rs:239-276 | asked for zero weights, every code written is the one for zero |
| GgufSynth.DrawnIsLegal | src/synth.rs:246-266 | no drawn byte holds the degenerate code, from any state |
| GgufSynth.I2sTensorWithScale | src/synth.rs:239-276 | the bytes drawn from the generator four codes at a time, first code high, or all zero weights; then a 32-byte block with scale one; and the state the generator is left in |
| GgufSynth.TernariesAreLegal | src/synth.rs:239-276 | either way no weight byte holds the degenerate code, and the scale block follows the weights |
| GgufSynth.SizeIsTensorBytes | src/gguf/tensor.rs:97-265 | the builder's byte counts are the sizes the reader computes for the same shapes and types |
| GgufSynth.BuildTensors | src/synth.rs:308-404 | the tensors of the configuration, in the builder's order; every byte is fixed by the seed, each random tensor continuing where the generator stood after those before it |
| GgufSynth.FillsConcat | src/synth.rs:308-404 | lists filled one after another are the joined list filled at once |
| GgufSynth.BuildGguf | src/synth.rs:308-470 | the built file is the written file of the configuration's metadata and tensors; it parses back to every tensor as drawn from the seed and to every metadata pair |
| GgufSynth.MetadataKeysDiffer | src/synth.rs:415-443 | the builder writes no key twice |
| GgufSynth.MetadataReadsBack | src/synth.rs:415-443 | so each of its pairs is in the map the reader makes of them |
| GgufLink.PatchEntry | src/gguf/linker.rs:330-381 | patching an entry writes its type and offset fields and no other byte |
| GgufLink.OutsideKept | src/gguf/linker.rs:350-381 | patching one entry leaves everything but the entries' fields as in the source |
| GgufLink.OtherFieldsKept | src/gguf/linker.rs:350-381 | and the other entries' fields as they were |
| GgufLink.EntryChanged | src/gguf/linker.rs:350-381 | a patched entry reads as the same name and shape with the new type and offset |
| GgufLink.EntriesChanged | src/gguf/linker.rs:350-381 | so does the whole directory |
| GgufLink.HeaderChanged | src/gguf/linker.rs:350-381 | a file that begins with a patched header parses to the same version, metadata, alignment and data start with the new fields |
| GgufArtifact.PhysicalOrder | src/gguf/linker.rs:192-193 | all tensors by increasing data offset |
| GgufArtifact.TooLarge | src/gguf/linker.rs:250-307 | once some prefix of the new layout ends beyond 64 bits the whole does, so no later check could have let it through |
| GgufArtifact.OrderIsUnique | src/gguf/linker.rs:192-193 | there is only one such order |
| GgufArtifact.SlotHolds | src/gguf/linker.rs:211-223 | a tensor's data and scale block lie in its slot, which ends in the file |
| GgufArtifact.PlanSlot | src/gguf/linker.rs:210-305 | plans one slot at the next aligned offset with its new size and type; fails exactly when the slot would end beyond 64 bits |
| GgufArtifact.PatchPrevious | src/gguf/linker.rs:225-239 | the previous slot grows to the next offset, nothing else changes |
| GgufArtifact.PlanNext | src/gguf/linker.rs:210-305 | one round keeps: slots planned so far are right, tile the section, and are described as they are |
| GgufArtifact.BuildPlan | src/gguf/linker.rs:185-322 | a plan exists exactly when the source parses, the profile accepts it and the new layout fits 64-bit offsets; its slots follow the physical order, are aligned, and its public account tiles the data section exactly |
| GgufOutput.WriteQ6K | src/gguf/linker.rs:403-424 | whole rows are quantised one after another, in order |
| GgufOutput.NewDataRows | src/gguf/linker.rs:403-424 | bytes r x (w / 256 x 210) to (r + 1) x (w / 256 x 210) of the new data are the quantised bytes r x 2 w to (r + 1) x 2 w of the old, for every row r, and there is nothing else |
| GgufOutput.NewDataLength | src/gguf/linker.rs:142-156 | the quantised rows fill exactly the planned bytes |
| GgufOutput.PatchedHeader | src/gguf/linker.rs:350-381 | the header with every planned field in place |
| GgufOutput.WriteSlot | src/gguf/linker.rs:445-490 | padding to the planned offset, then the copied slot, or the quantised rows and what followed the old data |
| GgufOutput.WriteArtifact | src/gguf/linker.rs:426-502 | writing never fails: the written length is always the planned one |
| GgufOutput.SlotStands | src/gguf/linker.rs:426-502 | every slot's content stands at its planned offset in the output |
| GgufOutput.SlotsApart | src/gguf/linker.rs:426-502 | slots keep the source's physical order and do not meet |
| GgufOutput.OutputFits | src/gguf/reader.rs:285-402 | every entry of the output satisfies the reader's range conditions |
| GgufOutput.OutputView | src/gguf/reader.rs:380-402 | the view read back from a slot is the copied tensor, or the quantised embedding |
| GgufOutput.ArtifactParses | src/gguf/reader.rs:120-414 | a written artifact parses, with the same metadata, names, shapes and directory order, aligned offsets in the source's physical order, every other tensor with its type, data and scale block, and the embedding as its quantised rows |
| GgufOutput.NothingMovesUp | src/gguf/linker.rs:210-305 | slot by slot, no tensor of an aligned source lies further into the output than into the source |
| GgufOutput.MovesUpLittle | src/gguf/linker.rs:210-305 | slot by slot, no tensor of any accepted source lies further in than before by more than one alignment a slot |
| GgufOutput.AlignedSourcesLink | src/gguf/linker.rs:185-322 | an accepted source whose tensor offsets are multiples of the alignment always has a plan |
| GgufOutput.ShortSourcesLink | src/gguf/linker.rs:185-322 | an accepted source always has a plan when its length and an alignment for every tensor but one fit 64 bits |
| GgufOutput.LinkArtifact | src/gguf/linker.rs:504-547 | linking succeeds exactly when a plan exists; its output has the planned length and parses with preserved meaning, and row r of its embedding is the quantised row r of the source's, for every r; the plan returned is a plan of the source, its slots tile the data section and its public account describes each tensor as planned |

## Left out

- Transformer: one projection function stands for all schedules; on AVX2 with Q4_K or Q6_K weights single-token decoding quantises its input first and prefill does not (src/model/linear.rs:56-64), so there the schedules agree only up to that quantisation.
- Transformer: IEEE rounding, NaN and infinities are not modelled; float operations are uninterpreted, and finiteness is a predicate.
- CachedForward: token-major workspaces are sequences of rows rather than one flat buffer with slices, norms cannot fail, and timing, layer callbacks and allocation failure are absent; `WellFormed` states what graph validation guarantees, and validation itself is not modelled.
- KvCache.KVCache.TryNew: a failed memory reservation, the source's other refusal, is not modelled.
- Generate: `GreedyGenerateNoCache` and `GreedyGenerateWithCache` take a context length of at most 2^32 - 1, which the configuration's 32-bit field guarantees.
- Absmax: rounding of the stored scale to 32 bits is not modelled; the bound is over the reals.
- ChatEngine: the sampler is an observed history, a generator state and an arbitrary choice; the tokenizer and the cancel flag are functions given to the engine; statistics and progress counters other than that flag are absent.
- ChatStream: characters are Unicode scalar values, and byte offsets into the reply are counts of characters.
- ChatProtocol: flags are sequentially consistent; the worker's turn is a start, polls, text and an end in any order the engine allows; events are also handled as field updates of the interface object, key presses only as transitions of its value; rendering, scrolling, search, key bindings and history files are absent.
- I2sSparse.FromI2s: asks for packed data that covers every row; the source would panic on shorter data, and it cannot occur in a parsed file.
- Q4KQ8.DotRow4Avx2: agrees with the scalar row over the reals; the float lanes are added in another order. The integers of each block agree exactly.
- Q6KFloat.DotRowSse2: agrees over the reals for the same reason.
- GgufSynth.BuildGguf: asks for positive dimensions, ternary input widths in whole blocks, 32-bit products and a tensor count within the reader's limit; the source asserts or wraps outside them.
- GgufOutput.LinkArtifact: graph acceptance, finiteness of half-precision data and the row quantiser are parameters; the quantiser is asked only to fill 210 bytes per 256 values.
- Gguf: tensor types are their numbers, float metadata its bits, and errors carry no message.
- Memory mapping, file creation, temporary files and hard links, command-line parsing, benchmarks: input and output only.
- The f32 SSE2 and NEON BitLinear kernels, and the remaining weight formats: the same loops over other layouts.
- The six-bit scale search and half-precision decoding: the first has no stated bound, the second is a table of bits.
- Line editing, dashboard, markdown, clipboard, mouse: index arithmetic and drawing.
- Model configuration, graph validation, tokenizer loading and pre-tokenisation, architecture registry: used only through what they guarantee.
