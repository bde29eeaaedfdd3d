# wordwrap: a verified model of the byte-budget line splitter

This project models `wordwrap.go` of the Go package `donatj/wordwrap`. The package cuts a
string into lines by a byte budget, never inside a UTF-8 rune. `SplitString` also never cuts
inside a grapheme cluster and never returns a line over the budget. It returns an error
instead. Where it can, it cuts after the most recent whitespace-led cluster. The builder's
`Split` relaxes both guarantees:

- With `BreakGraphemeClusters` it cuts inside clusters that are over the budget.
- It yields lines over the budget without an error, in two ways. In break mode the rune loop
  cuts only once the working line has reached the budget (wordwrap.go:108-113), so the rune
  that crosses it stays on the line, even with `ContinueOnError` off. Outside break mode the
  builder never checks a cut against the budget. So any cut that `SplitString` rejects
  (wordwrap.go:274-276) is yielded instead, with default options as with `ContinueOnError`.
  The one exception is the stop for an oversized cluster that starts the working line
  (wordwrap.go:149-155). See `Scenarios.IdeographicSpaceSplit`, `Scenarios.FamilyOnError`
  and `Scenarios.FamilyBreak`.

The model covers these parts of the package:

- `SplitString` returns the lines, or `ErrGraphemeClusterTooLarge`.
- `WrapString` joins those lines with `"\n"`.
- `join` is the package's private copy of `strings.Join`.
- The `charPos` record.
- `SplitBuilder`, built by `NewSplitBuilder` and its three functional options
  (`ContinueOnError`, `BreakGraphemeClusters`, `TrimTrailingWhiteSpace`). Its `Split`
  yields `(index, line)` pairs.

Strings are byte sequences (`seq<byte>`). Grapheme segmentation and the whitespace test are
parameters of the model. The caller passes the clusters of `s`, the whitespace test on a
cluster's first rune and, for the builder, the byte encodings of each cluster's runes.

Modules:

- `Base`: bytes, concatenation, runs of whole clusters, the `" \t\n\r"` trim and the
  separator join.
- `StrictSpec`: the loop of `SplitString` written as a left fold over the clusters.
  `StrictProps` proves what `SplitString` promises about that fold.
- `BuilderSpec`: the options and the loop of `Split`, as functions.
  `BuilderProps` proves how options combine and what `Split` yields.
- `WordWrap`: the imperative entry points. These are `SplitString` (with its cluster loop
  `ScanClusters`), `WrapString`, `Join`
  (over an `array` buffer, as `join` does with its `[]byte`) and the class `SplitBuilder`,
  whose fields are the limit and the three flags. Every method there is proved equal to
  its specification function. The proved properties come back out in its `ensures`.
- `Scenarios`: concrete inputs from `wordwrap_test.go`, evaluated through the
  specification. It also has the input showing that `SplitString`'s error is broader than
  its doc comment says.

The doc comment of `SplitString` (wordwrap.go:223-224) says it fails when it would be
forced to split a cluster larger than the limit. The model follows the code, which fails in
more cases. The loop checks the finished line against the limit after cutting at the last
space (wordwrap.go:274-276). So a line whose last cluster is the space can fail even though
no cluster is too large. Example: `"abc"` followed by U+3000 (3 bytes) at limit 4.
`Scenarios.IdeographicSpaceFails` shows this case. The converse does hold: a cluster over
the limit always fails (`StrictProps.OversizedClusterFails`). With default options,
`Split` on the same input yields the 6-byte line and signals no error
(`Scenarios.IdeographicSpaceSplit`). The reason is the empty block at wordwrap.go:193-198: the
builder has no counterpart of the check at 274-276. The same holds for an oversized cluster
that does not start the working line. On `"test "`, the 25-byte family emoji and `" end"` at
limit 10, `SplitString` fails (`Scenarios.FamilyStrictFails`). The default builder yields the
emoji with its following space as one 26-byte line and signals no error
(`Scenarios.FamilyOnError`). Its doc comments (wordwrap.go:38-39 and 59) suggest that an
oversized cluster is an error unless `ContinueOnError` is set; the code does this only for a
cluster that starts the working line.

## Model

| member | source | states |
|---|---|---|
| WordWrap.ScanClusters | wordwrap.go:229-282 | The cluster loop, run on local variables, ends in the state of the fold `StrictSpec.Scan`, or in its error. |
| WordWrap.SplitString | wordwrap.go:228-292 | Returns the fold `SplitLines`. On success the lines concatenate to `s` and are runs of whole clusters. Each line is non-empty and at most `byteLimit` bytes. A cluster longer than the limit gives the error. Empty input gives no lines. Input shorter than the limit gives `[s]`. |
| WordWrap.CopyInto | wordwrap.go:326-329 | Go's `copy(b[bp:], src)`: copies as many bytes as fit, returns how many, and leaves the bytes before and after the copied range unchanged. |
| WordWrap.Join | wordwrap.go:313-332 | Equals `Joined(a, sep)`: the elements with `sep` between each two neighbours. For non-empty `a`, its length is the sum of element lengths plus `len(a)-1` separators. |
| WordWrap.FillJoined | wordwrap.go:324-331 | Filling a buffer of the precomputed length with the first element, then separator and element pairs, gives exactly `Joined(a, sep)`. |
| WordWrap.WrapString | wordwrap.go:298-304 | Fails exactly when `SplitString` fails. Otherwise returns its lines joined with `"\n"`, of length `len(s)` plus one per line break. Empty input gives `""`. Input shorter than the limit comes back unchanged. |
| WordWrap.SplitBuilder.constructor | wordwrap.go:42-55 | The new builder's settings are `Configure(byteLimit, opts)`: every flag off, then each option applied in order. |
| WordWrap.SplitBuilder.BreakInto | wordwrap.go:101-124 | The rune loop over an oversized cluster produces the state `BreakCluster` defines: a line is yielded each time the working line reaches the limit. |
| WordWrap.SplitBuilder.AppendCluster | wordwrap.go:126-203 | Appending a whole cluster gives `ClusterStep`. It cuts after the last whitespace-led cluster, or before the current cluster, or at the limit. It returns early, with continueOnError off, when the cluster is the first of the working line, is not whitespace-led and exceeds the limit. That can happen after any cut, not only at the start of the input. A whitespace-led cluster over the limit is yielded instead. |
| WordWrap.SplitBuilder.Split | wordwrap.go:86-218 | Yields exactly `SplitPairs`. The indices are 0, 1, 2, ... Without trimming, the lines concatenate to a prefix of `s`, and to all of `s` with continueOnError. |
| Base.TrimRight | wordwrap.go:137-139 | `strings.TrimRight(line, " \t\n\r")`. The result is a prefix of the line and does not end in a cutset byte. Everything removed is cutset bytes. |
| Base.Joined | wordwrap.go:313-332 | The reference for `join`: the elements with the separator between each two neighbours. Its contract says the result starts with the first element, and with the first element and a separator when there are two or more. |
| Base.JoinedLength | wordwrap.go:320-323 | The length `join` precomputes is the length of the joined string. |
| Base.JoinedFits | wordwrap.go:325-330 | While the buffer is filled, each next separator and element still fit in the precomputed length, and appending them extends the joined prefix. |
| Base.GlueConcat | wordwrap.go:249-289 | Lines glued from runs of consecutive clusters concatenate back to the clusters. There is one line per run. |
| StrictSpec.Emit | wordwrap.go:250-276 | The cut-or-error shared by the three cuts. It fails exactly when the line just finished is over the limit (274-276). Otherwise the finished lines grow by exactly that line, the working line becomes the rest, and the state is well formed. |
| StrictSpec.Step | wordwrap.go:238-281 | One loop iteration keeps the positions inside the working line. `lastPos` marks the line's end. |
| StrictSpec.Scan | wordwrap.go:237-282 | The loop over all clusters, or the error that ends it. Every state it reaches keeps the positions inside the working line. |
| StrictSpec.Finish | wordwrap.go:284-291 | The tail fails exactly when the working line is over the limit. Otherwise it keeps the finished lines and adds the working line when it is non-empty. |
| StrictSpec.SplitLines | wordwrap.go:228-292 | What `SplitString` returns: the loop, then the tail. Its own contract gives the empty case (no clusters, no lines). Everything else it promises is proved in `StrictProps.SplitLinesFacts`. |
| StrictProps.LastSpace | wordwrap.go:243-247 | `None` exactly when the working line has no whitespace-led cluster. Otherwise it is the index of the last one. |
| StrictProps.MarksAfterAppend | wordwrap.go:243-247 | Appending a cluster moves `spacePos` to its end when it starts with whitespace, and keeps it otherwise. Either way `spacePos` marks the last whitespace-led cluster. |
| StrictProps.SpaceCut | wordwrap.go:250-255 | At or over the limit with a whitespace-led cluster, the finished line is everything up to and including the last such cluster. The rest stays in the working line. |
| StrictProps.LastCut | wordwrap.go:257-267 | Over the limit with no whitespace-led cluster, the line is cut just before the current cluster. If there is nothing before it, the result is the error. |
| StrictProps.WholeCut | wordwrap.go:268-271 | Exactly at the limit with no whitespace-led cluster, the whole line is finished. |
| StrictProps.CutRule | wordwrap.go:238-281 | Every iteration cuts exactly where `CutPoint` (the rule in terms of clusters) says. It fails exactly when that rule fails. The remainder is the clusters after the cut, and the space mark stays correct. |
| StrictProps.ScanPending | wordwrap.go:237-282 | After any prefix of the clusters, the finished lines are runs of whole clusters. The working line is the remaining clusters. |
| StrictProps.FlushGlue | wordwrap.go:284-289 | Appending the non-empty working line completes the runs over all clusters. |
| StrictProps.SplitLinesPartition | wordwrap.go:228-292 | Partition: on success the lines concatenate to exactly the input, and every cut falls on a cluster boundary. |
| StrictProps.ScanBound | wordwrap.go:249-281 | Every line the loop finishes is non-empty and within the limit. |
| StrictProps.SplitLinesBound | wordwrap.go:274-276 | Length bound: on success every line, the last one included, is non-empty and at most `byteLimit` bytes. |
| StrictProps.StepOversized | wordwrap.go:249-276 | A step that succeeds with a cluster, or a working line, over the limit leaves the working line over the limit. A line at or over the limit never carries a space mark. |
| StrictProps.ScanOversized | wordwrap.go:237-282 | Once an oversized cluster has been consumed without error, the working line stays over the limit. |
| StrictProps.OversizedClusterFails | wordwrap.go:257-287 | A cluster longer than the limit always makes `SplitString` return the error. |
| StrictProps.ZeroLimitFails | wordwrap.go:249-276 | With limit 0, every non-empty input fails. |
| StrictProps.ScanShort | wordwrap.go:249-272 | While the input so far is under the limit, nothing is cut and the working line is the input. |
| StrictProps.ShortInput | wordwrap.go:284-291 | Input with `0 < len(s) < byteLimit` comes back as the single line `s`. |
| StrictProps.EmptyInput | wordwrap.go:284-291 | Empty input gives no lines and no error, whatever the limit. |
| StrictProps.ScanErrPersists | wordwrap.go:257-281 | Once the loop has failed on a prefix, `SplitString` fails on the whole input. |
| StrictProps.SplitLinesFacts | wordwrap.go:228-292 | Gathers the partition, the bound, the oversized-cluster error, the empty-input case and the short-input case. |
| BuilderSpec.Apply | wordwrap.go:57-82 | Each option sets its own flag to the value it carries and leaves the limit and the other two flags unchanged. |
| BuilderSpec.Configure | wordwrap.go:42-55 | `NewSplitBuilder` keeps the limit. With no options every flag is off. The last-wins meaning over any options is `BuilderProps.ConfigureLastWins`. |
| BuilderSpec.Shown | wordwrap.go:137-139 | The copy handed to the consumer is a prefix of the line. It is the line itself without trimming. With trimming it does not end in `" \t\n\r"`. |
| BuilderSpec.Cut | wordwrap.go:126-190 | A cut yields exactly one pair, at the current index, and advances the index by one. The state stays well formed. |
| BuilderSpec.RuneStep | wordwrap.go:103-121 | One rune appended while breaking a cluster keeps the positions inside the working line. |
| BuilderSpec.BreakCluster | wordwrap.go:101-124 | The rune loop keeps the positions inside the working line. |
| BuilderSpec.ClusterStep | wordwrap.go:126-203 | If the cluster loop goes on, the positions stay inside the working line. |
| BuilderSpec.Step | wordwrap.go:99-126 | The dispatch between breaking an oversized cluster into runes and appending it whole keeps the state well formed whenever the loop goes on. |
| BuilderSpec.Scan | wordwrap.go:95-204 | The loop over all clusters, or the early return. Every state it reaches keeps the positions inside the working line. |
| BuilderSpec.Finish | wordwrap.go:206-216 | After an early return nothing more is yielded. Otherwise the tail keeps what was yielded and adds at most one pair. A non-empty working line is dropped exactly when it is over the limit and continueOnError is off. |
| BuilderSpec.SplitPairs | wordwrap.go:86-218 | Everything `Split` yields: the loop, then the tail. No clusters yield nothing. The other properties are the `BuilderProps` lemmas below. |
| BuilderProps.ConfigureLastWins | wordwrap.go:42-82 | `NewSplitBuilder` keeps the limit. A flag is on exactly when some option turns it on and no later option sets it again. With no option for it, the flag is off. |
| BuilderProps.StepMatches | wordwrap.go:126-203 | With default options, a builder iteration does what a `SplitString` iteration does. |
| BuilderProps.ScanMatches | wordwrap.go:95-204 | With default options, the builder's loop ends in the state of `SplitString`'s loop whenever the latter succeeds. |
| BuilderProps.DefaultMatchesSplitString | wordwrap.go:37-41 | Default behaviour matches `SplitString`: whenever `SplitString` succeeds, `Split` yields exactly its lines, numbered 0, 1, 2, ... |
| BuilderProps.ScanNumbered | wordwrap.go:95-204 | Every cut yields the current index and then increments it. |
| BuilderProps.SplitNumbered | wordwrap.go:86-218 | Whatever the options, the yielded indices are 0, 1, 2, ... in order. |
| BuilderProps.BreakCovers | wordwrap.go:101-124 | Without trimming, breaking a cluster loses no bytes: the yielded lines plus the working line grow by the cluster. |
| BuilderProps.ClusterCovers | wordwrap.go:126-203 | Without trimming, appending a cluster loses no bytes. The early return keeps exactly what was already yielded. |
| BuilderProps.ScanCovers | wordwrap.go:95-204 | Without trimming, the yielded lines plus the working line are the input so far. An early stop has yielded a prefix of it. With continueOnError the loop never stops early. |
| BuilderProps.SplitCoversInput | wordwrap.go:86-218 | Without trimming, the yielded lines concatenate to a prefix of `s`, and to all of `s` with continueOnError. |
| BuilderProps.EmptySplit | wordwrap.go:206-216 | Whatever the options, empty input yields nothing. |
| BuilderProps.BreakModeNeverStops | wordwrap.go:149-155 | With breakGraphemeClusters the early return for a too large first cluster is never reached. |
| BuilderProps.BreakModeLosesOnlyOverlongTail | wordwrap.go:206-210 | With breakGraphemeClusters and no trimming, the output is all of `s`, or `s` minus one final remainder longer than the limit, dropped because continueOnError is off. |
| BuilderProps.TrimAllAt | wordwrap.go:137-139 | The k-th trimmed pair keeps its index and carries the k-th line trimmed. |
| BuilderProps.BreakTrims | wordwrap.go:108-119 | In the rune loop, trimming changes only the yielded copies. |
| BuilderProps.ClusterTrims | wordwrap.go:126-203 | In the cluster loop, trimming changes only the yielded copies. The cuts and the working line are as without trimming. |
| BuilderProps.ScanTrims | wordwrap.go:95-204 | Over the whole loop, trimming changes only the yielded copies. |
| BuilderProps.SplitTrims | wordwrap.go:86-218 | With trimTrailingWhiteSpace, `Split` yields the untrimmed pairs with each line's trailing `" \t\n\r"` removed. Indices and cut points are unchanged. |
| BuilderProps.ScanStopPersists | wordwrap.go:149-155 | After the early return, later clusters change nothing. |
| BuilderProps.SplitFacts | wordwrap.go:86-218 | Gathers the numbering and the prefix-of-input properties of `Split`. |
| Scenarios.IdeographicSpaceFails | wordwrap.go:274-276 | `"abc"` followed by U+3000 at limit 4: no cluster is over the limit, yet `SplitString` fails. |
| Scenarios.IdeographicSpaceSplit | wordwrap.go:193-198 | The same input through a default builder yields the 6-byte line at index 0, over the limit, with no error. |
| Scenarios.FamilyStrictFails | wordwrap.go:274-276 | `SplitString` on `"test "`, the 25-byte family emoji and `" end"` at limit 10 returns the error, as it must for a cluster over the limit. |
| Scenarios.FamilyOnError | wordwrap_test.go:389-405 | On the same input at limit 10, the builder with ContinueOnError yields `"test "`, the emoji followed by its space (26 bytes), and `"end"`. The default builder yields the same three lines, with no error signalled. |
| Scenarios.FamilyBreak | wordwrap_test.go:407-423 | With BreakGraphemeClusters, the same input yields four lines. The first two, 12 and 11 bytes, are over the limit: the rune loop cuts only once the limit is reached (wordwrap.go:108-113). |
| Scenarios.DefaultBehavior | wordwrap_test.go:310-326 | `"asdasd asd asdasd"` at limit 4 yields `"asda"`, `"sd "`, `"asd "`, `"asda"`, `"sd"`. |
| Scenarios.WithIndex | wordwrap_test.go:328-351 | `"Hello world this is a test"` at limit 10 yields `"Hello "`, `"world "`, `"this is a "`, `"test"` at indices 0 to 3. |
| Scenarios.TrimmedLines | wordwrap_test.go:353-369 | The same input with TrimTrailingWhiteSpace yields `"Hello"`, `"world"`, `"this is a"`, `"test"`. |
| Scenarios.TrimMultipleSpaces | wordwrap_test.go:371-387 | Runs of trailing spaces are trimmed, giving `"test"`, `"more"`, `"data"`. |
| Scenarios.CombinedOptions | wordwrap_test.go:425-444 | Trimming together with ContinueOnError yields `"Hello"`, `"world"`, `"test"`. |
| Scenarios.HelloStrictJoined | wordwrap.go:313-332 | The four lines of the first `TestWrapString` case, joined with `"\n"`. |
| Scenarios.SplitAsd | wordwrap_test.go:15-16 | `SplitString("asdasd asd asdasd", 4)` gives `"asda"`, `"sd "`, `"asd "`, `"asda"`, `"sd"`, and these joined with newlines are what `WrapString` returns. |
| Scenarios.WrapHello | wordwrap_test.go:211-216 | `SplitString("Hello world this is a test", 10)` gives four lines. `WrapString` therefore returns `"Hello \nworld \nthis is a \ntest"`. |

## Left out

- Grapheme segmentation (`uniseg`), `unicode.IsSpace` and UTF-8 decoding are parameters, not modelled. The caller supplies the clusters, the whitespace test on a cluster and each cluster's runes. The handling of invalid UTF-8 is therefore not modelled.
- The `uint` to `int` conversion of the byte limit is not modelled. The limit is an unbounded `nat`.
- The iterator's early exit when the consumer's `yield` returns false (wordwrap.go:143-145 and the like) is not modelled. `Split` is modelled as the whole list of pairs a consumer that never stops receives.
- Functional options are closures in Go. Here they are a datatype of the three options the package defines. Options written outside the package are not modelled.
- `strings.Builder` is modelled as a `seq<byte>` that is reassigned. Its growth strategy is not modelled.
- WordWrap.SplitBuilder.Split: no line-length bound is stated, because the code keeps none. With default options any cut that `SplitString` rejects at wordwrap.go:274-276 is yielded (`Scenarios.IdeographicSpaceSplit`, `Scenarios.FamilyOnError`). In break mode the rune that reaches the limit stays on the line (`Scenarios.FamilyBreak`).
- WordWrap.SplitBuilder.Split: the coverage properties are stated only without trimming. They also require the clusters and runes to be segmentations of the input. With trimming, `BuilderProps.SplitTrims` relates the output to the untrimmed run.
- The empty block at wordwrap.go:193-198 does nothing. It is modelled as doing nothing.
- The builder tests in `wordwrap_test.go` call `NewSplitBuilder()` and `Split(input, limit)`, a signature the package does not have. The scenarios pass the limit to `NewSplitBuilder` instead.
- Some tests are not evaluated on their concrete inputs: the remaining `TestSplitString` and `TestWrapString` cases (CJK, Hangul, the 60-byte English text, the other emoji), the error tables and `TestSplitBuilder_Unicode`. Each concrete input needs its grapheme segmentation written out by hand, and a proof unfolded one cluster at a time. That costs several lemmas per handful of clusters, and these inputs run to hundreds of bytes. Their general behaviour is covered by `SplitLinesBound`, `OversizedClusterFails`, `SplitCoversInput` and `BreakModeLosesOnlyOverlongTail`. The family-emoji input of the ContinueOnError and BreakGraphemeClusters tests is evaluated (`Scenarios.FamilyOnError`, `Scenarios.FamilyBreak`).
