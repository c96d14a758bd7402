# Itako engine model

A Dafny model of the `Itako` class of itako (`src/index.js`). Itako is a text-to-speech
pipeline engine with four parts:

- An **option store**: a nested map that `setOption`/`getOption` address with string or
  array paths.
- A **transform reduction**: a text becomes a single `text` token, which each transformer in
  turn rewrites into a deep-flattened token list.
- A **read dispatch**: each token goes to the first enabled reader that claims it, and
  `readSerial` walks a batch one token at a time.
- A **preload pass**: it tags each token with the first reader that preloads it.

A serial read is chained behind a cursor, and the model tracks that too.

Files and modules:

- `results.dfy` (`Results`): `Option` and `Result`.
- `option_tree.dfy` (`OptionTree`): a JavaScript value as a datatype, path validation and
  splitting, the lodash-style `Find`/`Get`/`Put`, and their laws.
- `tokens.dfy` (`Tokens`): tokens, a transformer's nested result, and deep flattening.
- `plugins.dfy` (`Plugins`): readers and transformers as datatypes with function fields, and the
  per-plugin option bucket with the shared `'anonymous'` name.
- `transform.dfy` (`TransformPipeline`): the `transform` reduction and its laws.
- `dispatch.dfy` (`ReadDispatch`):
  - specification functions for `readToken`, `readSerial` and `preload`;
  - laws about them: first match, order, the error message, and the preload hand-off.
- `cursor.dfy` (`SerialCursor`): how successive serial reads settle, as written and corrected.
- `engine.dfy` (`Engine`):
  - the class `Itako`, with the mutable `options` field and the queue of serial batches;
  - its methods, each proved equal to the specification functions above.
- `scenarios.dfy` (`Scenarios`): plugins as concrete values, with the test suite's call
  sequences as methods and lemmas stating the outcomes the suite expects.
  - `CloneTransformer`, `ChunkTransformer`, `AllReplaceTransformer`, `NoopReader` and
    `DelayReader` are the fixtures of test/mock-plugins.js.
  - `DeclineReader` and `TextReader` are added here, for a declining reader and one that claims
    only `text` tokens.
  - `PreloadReader` stands for `plugins.preloadReader` of test/events.js:27, which
    test/mock-plugins.js does not define. Here it preloads and claims every token.

Modelling choices:

- A reader's `read` result is a closed variant, `Claimed | Declined(token)`, in place of the
  duck-typed `isPromise` test (src/index.js:211-213). A claim completes at once.
- `emit`/`emitParallel` are recorded as events in a trace, not called.
- Readers and transformers are named in `meta` by their position (`ReaderRef(i)`,
  `TransformerRef(i)`), not by object identity.
- The serial cursor is the field `current` (the source's `this.current`) together with the queue
  `pending` of batches waiting to run. `Read` appends to the queue.
  - `Settle` runs the oldest batch and settles its promise as the source's `finally` chain does.
    The promise then becomes `current`. The ghost predicate `CursorChain` records that the
    settled promises are exactly `SerialCursor.ChainAsWritten` over the batches' own outcomes.
  - `SettleCorrected` is the corrected cursor of the finding below. Its read settles with the
    batch's own outcome.

Where the tests and the code disagree, the model follows the code. Several read tests build the
engine as `new Itako([], [plugins.noopReader])`, which puts the reader in the transformers slot
(test/read.js:22). The constructor declares readers first (src/index.js:19), so the scenarios
pass the fixtures as readers.

## Model

| member | source | states |
|---|---|---|
| OptionTree.ValidatePath | src/index.js:32-37 | accepts exactly strings and arrays (including `""` and `[]`); anything else fails with `path is must be string or array`; a string path splits into keys that join back to it |
| OptionTree.JoinSplit | src/index.js:48 | splitting a string path at `.` and joining the keys again gives back the path |
| OptionTree.SplitJoin | src/index.js:48 | keys without dots, joined and split again, are the same keys |
| OptionTree.SplitPrefix | src/index.js:48 | a path `key.rest` splits into `key` followed by the keys of `rest` |
| OptionTree.FindPut | src/index.js:46-50 | after writing a value at a non-empty path, reading that path yields the value |
| OptionTree.FindPutOther | src/index.js:46-50 | writing one path leaves every path that diverges from it unchanged |
| OptionTree.PutPut | src/index.js:46-50 | a second write to the same path replaces the first |
| OptionTree.GetAfterPut | src/index.js:46-72 | after `set(p, v)`, `get(p, d)` is v, or d when v is undefined |
| OptionTree.FindEmpty | src/index.js:71 | every path of the empty store reads as undefined |
| Engine.Itako.constructor | src/index.js:19-24 | the engine holds the given readers, transformers and options, and no serial batch is queued |
| Engine.Itako.GetOption | src/index.js:69-72 | fails with the path error exactly for non-string, non-array paths; otherwise yields the stored value, or the default when that is undefined |
| Engine.Itako.SetOption | src/index.js:46-50 | fails with the path error and leaves the store alone for a bad path; otherwise hands back the engine itself; the stored value then reads back; diverging paths are unchanged |
| Engine.Itako.SetOptions | src/index.js:57-60 | the store becomes the old store overridden key by key by the argument; other keys keep their values |
| Engine.Itako.GetOptions | src/index.js:78-80 | a newly allocated copy with exactly the stored top-level entries |
| Plugins.BucketName | src/index.js:99 | an absent or empty plugin name selects the bucket `'anonymous'`; any other name selects its own bucket |
| Plugins.PluginSettings | src/index.js:100 | `disable` is the truthiness of `<category>.<bucket>.disable` and `options` is `<category>.<bucket>.options` |
| Plugins.AnonymousShared | src/index.js:99 | two plugins without a usable name read the same settings |
| Plugins.DisableBySetting | src/index.js:100-103 | setting `<category>.<name>.disable` truthy disables that plugin |
| Tokens.FlattenAppend | src/index.js:105 | deep flattening distributes over concatenation, so left-to-right order is kept |
| Tokens.FlattenLift | src/index.js:105 | a flat token list comes out of flattening unchanged |
| Tokens.FlattenIntoIsFlatten | src/index.js:105 | the accumulating left-to-right walk equals the recursive deep flatten |
| Tokens.FlattenExample | src/index.js:105 | `[[a, [b]], c]` flattens to `[a, b, c]` |
| TransformPipeline.InitialOptions | src/index.js:91-95 | the seed options are the caller's options where given, otherwise the entries of `transform.options` |
| TransformPipeline.TransformOptionsPath | src/index.js:93 | the path `'transform.options'` denotes the keys `transform`, `options` |
| TransformPipeline.NoTransformers | src/index.js:90-108 | with no transformers the result is one `text` token holding the source and the seed options |
| TransformPipeline.FlatResultPassesThrough | src/index.js:105 | an enabled transformer that returns a flat list hands on exactly that list |
| TransformPipeline.FoldAppend | src/index.js:97-108 | reducing over a concatenation of transformer lists is reducing over each part in turn |
| TransformPipeline.DisabledIsRemoved | src/index.js:100-103 | a disabled transformer gives the same result as removing it from the list |
| TransformPipeline.AllDisabled | src/index.js:100-103 | when every transformer is disabled the token list passes through unchanged |
| ReadDispatch.DispatchShape | src/index.js:220-241 | the readers asked are exactly the enabled readers up to the claimer, or all of them when nobody claims; the claimer is enabled and is written to the token's `meta.reader` |
| ReadDispatch.DispatchFindsFirstClaimer | src/index.js:220-241 | when declining readers hand the token back, a claim comes from the first enabled reader that claims, and the token is tagged with it; otherwise no enabled reader claims and the token is unchanged |
| ReadDispatch.FirstClaimWins | src/index.js:220-241 | the claimer is c exactly when c is the first enabled claiming reader; nobody claims exactly when no enabled reader does |
| ReadDispatch.FirstClaimerUnique | src/index.js:220-241 | the first claiming reader is unique |
| ReadDispatch.AllReadersDisabled | src/index.js:228-231 | with every reader disabled nobody is asked and the token is unclaimed |
| ReadDispatch.DispatchClaims | src/index.js:232-237 | an enabled reader that claims ends the dispatch and tags the token with itself |
| ReadDispatch.DispatchDeclines | src/index.js:232-237 | an enabled reader that declines hands its result to the next reader |
| ReadDispatch.DispatchSkips | src/index.js:228-231 | a disabled reader is passed over |
| ReadDispatch.WalkSucceeds | src/index.js:186-204 | the walk over a batch finishes exactly when every token is claimed, and then yields every token in its dispatched form, in order |
| ReadDispatch.WalkFailsAt | src/index.js:188-199 | the walk fails at the first unclaimed token with `unexpected token "<type>:<value>"`, and no token after it is dispatched |
| ReadDispatch.WalkInOrder | src/index.js:188-201 | the calls and events of the walk are about token positions that never go back |
| ReadDispatch.ReadSerialFailsAtFirstUnclaimed | src/index.js:186-204 | `readSerial` rejects with the error for the first unclaimed token; it starts with `before-read`; every later event is about a token up to that one |
| ReadDispatch.ReadSerialSucceeds | src/index.js:186-204 | `readSerial` fulfils exactly when every token is claimed; every token then carries `meta.reader`; the trace runs from `before-read` to `after-read` |
| ReadDispatch.ReadSerialInOrder | src/index.js:186-204 | the dispatch events of a run are in token order and sit between `before-read` and `after-read` |
| ReadDispatch.PreloaderFrom | src/index.js:158-173 | the preloader found is an enabled reader with a `preload` that accepts the token, and no reader before it does; when none is found no reader does |
| ReadDispatch.PreloadTokenShape | src/index.js:168-170 | the preload pass changes only `meta.preloader`, which names the first preloading reader; a token nobody preloads is left as it is |
| ReadDispatch.PreloadAllTags | src/index.js:156-175 | after the preload pass every token that some reader preloads carries the first such reader as `meta.preloader`; a token no reader preloads is unchanged |
| ReadDispatch.PreloadAllAppend | src/index.js:157 | the pass treats each token on its own: preloading a concatenation is preloading each part |
| ReadDispatch.PreloadVisibleToRead | src/index.js:128-130 | a preloaded token reaches the readers with `meta.preloader` set; once claimed, it carries both tags |
| Engine.Itako.ReadToken | src/index.js:220-241 | the loop over the readers computes exactly the dispatch specification |
| Engine.Itako.ReadStep | src/index.js:222-237 | one reader's turn of the reduce leaves where the dispatch is heading unchanged |
| Engine.Itako.ReadSerial | src/index.js:186-204 | the loop over the batch computes exactly the serial-walk specification, events included |
| Engine.Itako.FindPreloader | src/index.js:158-173 | the inner loop with `continue`/`break` finds exactly the first preloading reader |
| Engine.Itako.Preload | src/index.js:156-175 | the tokens come out tagged as the preload specification says, with one `preload` event per preloaded token, in token order |
| Engine.Itako.Read | src/index.js:119-147 | A token list is used as is. A text is transformed with the store's `transform` entries overridden by the second argument. Preloading happens when `read.preload` is truthy. With `read.serial` truthy, the batch is queued behind the earlier ones. Otherwise it runs at once. |
| Engine.Itako.Settle | src/index.js:131-143 | the oldest queued batch runs; its read settles as the chain step from the current cursor over the batch's own outcome, and that becomes the cursor; the cursor stays the `finally` chain over all own outcomes so far; the queue loses that batch; the run's events are returned |
| Engine.Itako.SettleCorrected | src/index.js:131-143 | corrected cursor: the oldest queued batch runs and its read settles with the batch's own outcome; the run's events are returned |
| Engine.OutcomeOfRun | src/index.js:146 | a run's promise fulfils exactly when every token is claimed, with the dispatched tokens; otherwise it rejects with the error for the first unclaimed token |
| SerialCursor.ChainStep | src/index.js:136-139 | the call's promise rejects exactly when the cursor or the batch's own run rejects; the batch's own rejection wins over the cursor's; after a fulfilled cursor it settles as the batch's own run; when it fulfils, it is with the batch's own tokens |
| SerialCursor.ChainAsWritten | src/index.js:136-141 | as written, each serial read's promise is the chain step from the promise of the read before it (the starting cursor for the first) over the read's own outcome |
| SerialCursor.ChainAsWrittenSnoc | src/index.js:136-141 | one more serial read as written adds the chain step from the cursor the earlier reads left behind |
| SerialCursor.RejectionSticks | src/index.js:136-141 | as written, once a serial read rejects, every later serial read rejects |
| SerialCursor.LatestRejection | src/index.js:136-141 | as written, a serial read whose own batch and every batch since the latest rejected one are fulfilled rejects with that latest rejection's reason |
| SerialCursor.StepRejects | src/index.js:136-141 | as written, a serial read rejects when the one before it rejected |
| SerialCursor.StaleRejection | src/index.js:136-141 | as written, a read whose own token is claimed still rejects with the earlier read's error |
| Scenarios.StaleSerialRead | src/index.js:131-143 | on the engine with `read.serial` set: a serial read of a token no reader claims, then one of a token the text reader claims; the second read's own run ends with `after-read`, yet both promises reject with the first read's error |
| SerialCursor.CorrectedSettlesOwn | src/index.js:136-141 | with the cursor's rejection caught, every serial read settles with its own outcome |
| Scenarios.OptionsRoundTrip | test/options.js:45-53 | `plugin.enable` reads back `true`; the absent `nothing` reads as the default `false` |
| Scenarios.InvalidPaths | test/options.js:14-37 | undefined, number, null, object and function paths are refused by both `setOption` and `getOption` with the path error; `""` and `[]` are accepted by both |
| Scenarios.CopiesAreFresh | test/options.js:39-43 | `setOption` hands back the engine itself; two `getOptions` calls give distinct objects holding `foo: 'bar'` |
| Scenarios.TransformOptions | test/transform.js:35-46 | `transform.options.volume` seeds the token options; the transform's own argument overrides it; both transforms give one `text` token `'hi'` |
| Scenarios.CloneTransform | test/transform.js:48-57 | the clone transformer tags the token it clones |
| Scenarios.CloneDisabledTransform | test/transform.js:59-70 | a disabled clone transformer hands on the one `text` token `'hi'` untagged |
| Scenarios.CloneNoopTransform | test/transform.js:72-83 | the clone transformer's `noop` option reaches it and it hands on the one `text` token `'hi'` untagged |
| Scenarios.CloneThenChunk | test/transform.js:85-98 | clone then chunk turns `'hi'` into the flat list `h`, `i`, tagged by the chunk transformer |
| Scenarios.AllReplaceTransform | test/transform.js:100-110 | a transformer that replaces the whole list decides the result |
| Scenarios.ReadWithoutReaders | test/read.js:11-19 | with no readers, reading `'hi'` rejects with `unexpected token "text:hi"` |
| Scenarios.ReadWithNoop | test/read.js:21-28 | the noop reader claims `'hi'` and the token names it in `meta.reader` |
| Scenarios.ReadWithNoopDisabled | test/read.js:30-38 | with `readers.noop.disable` set, reading `'hi'` rejects as with no reader |
| Scenarios.FirstMatch | src/index.js:220-241 | a declining reader hands on to the next; the first claimer ends the dispatch and is recorded in `meta.reader` |
| Scenarios.ReadEmitsOnce | test/events.js:10-24 | with one noop reader, reading `'hi'` emits exactly one `read` event, for the text token `'hi'`, which carries the noop reader as `meta.reader` |
| Scenarios.SerialReads | test/read.js:74-87 | serial reads queue in call order and settle oldest first, each with its own token (`'a'`, then `'b'`) tagged with the delay reader as `meta.reader` |
| Scenarios.PreloadThenRead | test/events.js:26-44 | with `read.preload` set, the preload pass gives one `text` token `'hi'` tagged with `meta.preloader` and no `meta.reader`; one `preload` event precedes the read; the token read is `'hi'` carrying both `meta.preloader` and `meta.reader` |

## Left out

- Event emission (`emit`, `emitParallel` from the `carrack` base class) is recorded as trace
  events only. Listeners, and their ability to change a token, are not modelled, because they are
  foreign asynchronous calls.
- Promise scheduling and timing (the `setTimeout` delays of the fixtures) are left out. A claim
  completes at once. The serial cursor is the field `current` with the FIFO queue `pending`, and
  a queued batch runs when `Settle` is called.
- Token identity is not modelled. Tokens are values, so `setMeta` on a shared token object, and
  `then(() => tokens)` handing back the same objects that were tagged, become returned values.
  This differs from the source when a declining reader hands on a different token object. The
  source tags that replacement (src/index.js:234), but the promise fulfils with the original
  `tokens` (src/index.js:146), which stay untagged. The model hands back the tagged replacement.
- `getOptions`: the copy is shallow in the source, and the nested objects it shares with the store
  are not modelled.
- lodash path syntax beyond dots (brackets, quoted keys) and numeric array indices are not
  modelled. String paths are split at every `.`.
- A transformer that returns a bare token (or any other value without a `length`), which
  `flattenDeep` turns into `[]`, is not modelled. A transformer's result is always a nested list.
- A `null` plugin bucket is not modelled. Destructuring it throws in the source.
- A store holding `read: null` is not modelled. lodash `get` returns `null` rather than the
  default there, so `readOptions.preload` throws (src/index.js:127-128). The model reads it as `{}`.
- A reader whose `read` returns a falsy value (`undefined`, `null`, `0`, `""`) is not modelled.
  `isPromise` then returns that falsy value (src/index.js:212), which is not `=== false`
  (src/index.js:193). So the step resolves: the read fulfils with no claim and no `unexpected
  token` error. A reader's result is the closed variant `Claimed | Declined(token)`, so
  `WalkSucceeds` and `ReadSerialSucceeds` hold only for readers that claim or hand on a token.
- A reader that hands on a truthy value that is not a token is not modelled. The next claimer's
  `token.setMeta` (src/index.js:234) would throw.
- Rejections and exceptions raised by plugins are not modelled: a claim promise that rejects
  (src/index.js:198), a `reader.read` that throws (src/index.js:232) and a `transformer.transform`
  that throws (src/index.js:105). Every claim is taken to fulfil and no plugin throws.
  ReadDispatch.WalkSucceeds, ReadDispatch.ReadSerialSucceeds and Engine.OutcomeOfRun therefore
  describe a run whose only failure is an `unexpected token` error; where a plugin rejects or
  throws, the source's read rejects with that plugin's error instead.
- Option values that are JavaScript arrays are not modelled. `OptionTree.Value` has no array
  variant, since no option of the core is an array.
- `read()` with no source is not modelled. The serial tests call it that way, and its token would
  hold `undefined`. The scenarios read a text.
- The test at test/read.js:40-48 uses a transformer fixture as a reader and is not modelled.
- `Number` values are integers. NaN and floating point are not modelled.
- OptionTree.Get: its ensures restate its body, because it is lodash `get` with a default. What
  it means is stated by GetAfterPut and by the GetOption and SetOption contracts.
- Engine.Itako.Transform has no contract of its own. It is the `TransformPipeline.Transform`
  reduction over the engine's state, and its properties are the TransformPipeline lemmas.

## Findings

| source | as written | input that shows it | evidently intended | confidence | as-written member | corrected member |
|---|---|---|---|---|---|---|
| src/index.js:136-141 | each serial read becomes `current.finally(() => readSerial(tokens)).then(() => tokens)` and that promise becomes the new cursor; `finally` passes on the cursor's own rejection when the callback succeeds | with `read.serial` set, a first read whose token nobody claims, then a second read whose token is claimed: the second read rejects with the first read's `unexpected token` error; from then on every serial read rejects, with its own error when its own batch fails and otherwise with the latest earlier rejection | each serial read starts after its predecessor settles and settles with its own outcome | not executed; follows the specified semantics of `Promise.prototype.finally` | SerialCursor.ChainAsWritten, SerialCursor.StaleRejection, SerialCursor.RejectionSticks, SerialCursor.LatestRejection, Engine.Itako.Settle, Scenarios.StaleSerialRead | SerialCursor.ChainCorrected, SerialCursor.CorrectedSettlesOwn, Engine.Itako.SettleCorrected |
