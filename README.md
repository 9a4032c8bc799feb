# mocha-runner-reporter: the Runner's result store and report

This project models the core of `lib/runner.js`, the `Runner` class of
mocha-runner-reporter, and proves properties of that model in Dafny.

The Runner listens to the events of a Mocha run:

- the end of a test or hook has its duration recorded;
- a passed, failed or pending test is filed under the title of its root suite;
- at the end, the Runner publishes five dictionaries (`passes`, `failures`,
  `pending`, `total`, `timeTaken`).

`generateReport` turns such a data object into the text of an e-mail. The text is:

- a banner of stars around the suite name;
- an overview, which has two layouts:
  - one suite: its name, file, counts, duration and start time;
  - zero or several suites: the number of suites, grand totals and duration;
- a numbered listing of each suite's failures.

While it writes the report, `generateReport` adds empty buckets to the data
object it was handed.

The model has these parts:

- `Dicts`: the JavaScript plain object used as a dictionary. It keeps the
  keys in insertion order, which is the order `Object.keys` reports, and maps
  each key to its value.
- `Runnables`: Mocha's test, hook and suite objects, linked upward through
  `parent`, and `_getRootTestTitle`.
- `Aggregation`: the Runner's five stores as one value (`Store`). Each
  private helper is a function on that value: `_addData` is `Added`,
  `_setDuration` is `Timed`, `_setData` is `Filed`, and one event listener is
  `Observe`. The module also holds the invariants those functions keep.
- `Runs`: `run` as a fold of `Observe` over a list of events (`Replay`), and
  lemmas about whole runs.
- `Reports`: the text of `generateReport` as functions, including its error
  cases (`Report`), and lemmas about that text and about the data it
  back-fills. It also holds the loops of `generateReport` as methods over a
  `ReportData` object that is updated in place.
- `Runners`: the `Runner` class. Its five fields are updated by the methods
  `AddData`, `SetDuration`, `SetData` and `Run`, each proved equal to the
  function that specifies it; `GenerateReport` is proved equal to `Report`.

Four collaborators of the report are parameters of a `Formatter` value, not
interpreted:

- `helper.msToString`;
- the rounded percentage `Math.round((100 / n * c) * 100) / 100` as
  JavaScript prints it;
- the printed `new Date(Date.now() - t)`;
- `stripAnsi`.

Where the code throws, the model returns an error value:

- `NoSuiteName` and `NoContents` are the two explicit `throw`s.
- `MalformedData` is a TypeError the code runs into on malformed data:
  - an empty `total` bucket;
  - a parentless test with no file;
  - a failure record without an `error`.
- A `fail` event whose test has no `err` makes the `_setData` listener
  throw. The model has `SetData` return `false`. `Run` then returns `None`
  (the promise never resolves), and the stores stay as they were before that
  event.

The model keeps one quirk of `_setDuration`: a root suite titled `"total"`
shares its slot with the grand total, so its durations are added to that slot
twice.

## Model

| member | source | states |
|---|---|---|
| Runnables.Chain | lib/runner.js:395-398 | The chain of a node and its ancestors starts at the node; each element's parent is the next one; the last has no parent. |
| Runnables.RootTitle | lib/runner.js:390-400 | The result is null exactly when the test is absent. |
| Runnables.RootTitleIsNearestRootLevel | lib/runner.js:390-400 | The root title is the title of the nearest node, from the test upward, that has no parent or whose parent has the empty title. Examples: a test right under the top-level suite gives its own title; a nested test gives its outermost named suite's title. |
| Runnables.NearestRootLevelExists | lib/runner.js:395-399 | Such a nearest root-level node always exists, so the upward walk ends at a node whose title is returned. |
| Aggregation.Store.Added | lib/runner.js:440-444 | `_addData(b, k, r)`: bucket `b` under `k` ends with `r` and has the old records before it. The key `k` is created if it was missing. Every other key, every other store and the durations are unchanged; well-formed dictionaries stay well-formed. |
| Aggregation.Store.AddedTwo | lib/runner.js:428-430 | `keys.forEach` over two stores is the append to the first store, then the append to the second. |
| Aggregation.Store.AddedAll | lib/runner.js:428-430 | `keys.forEach(key => this._addData(key, k, r))` leaves the durations unchanged and keeps the dictionaries well-formed. |
| Aggregation.Store.AddedAllFiles | lib/runner.js:428-430 | Each store listed gets `r` appended under `k` once per listing, after its old records; every other key and every unlisted store is unchanged. |
| Aggregation.Store.Reset | lib/runner.js:410-411 | `!d[k] && (d[k] = 0)`: afterwards `k` exists, exactly that key is added, and every slot reads as before. |
| Aggregation.Store.Bump | lib/runner.js:413-414 | `test.duration && (d[k] += test.duration)`: slot `k` grows by the truthy duration, every other slot reads as before, and an existing key adds no key. |
| Aggregation.Store.Clock | lib/runner.js:410-414 | The duration store after the four updates of `_setDuration`, in the source's order; `Timed` states their effect. |
| Aggregation.Store.Timed | lib/runner.js:408-415 | `_setDuration(test)`: the `"total"` slot and the root's slot exist afterwards. Exactly those keys are added. If the root is not `"total"`, each slot grows by the truthy duration; if it is `"total"`, that slot grows by twice the duration. Every other slot and the four test stores are unchanged. |
| Aggregation.Store.Filed | lib/runner.js:424-431 | `_setData`: throws (None) exactly when an error is given and `test.err` is missing; otherwise the durations are unchanged. |
| Aggregation.Store.Observe | lib/runner.js:93-97 | The listener per event: `test end` and `hook end` record the duration. `pass`, `fail` and `pending` file the test under its outcome store and `total`. The listener throws exactly for a failure whose test has no `err`. Well-formedness is preserved. |
| Aggregation.Store.Published | lib/runner.js:100-106 | The resolved object: `failures` is the `fails` store and `timeTaken` is `duration`; the other three keep their names. |
| Aggregation.EmptyStore | lib/runner.js:76-82 | The constructor's five `{}` are consistent, and every bucket reads as empty. |
| Dicts.Dict.Get | lib/runner.js:442 | `this[obj][key]`: a value exactly when the key holds one, and then that value. |
| Dicts.Dict.GetOr | lib/runner.js:410-411 | The stored value, or the default when the key is missing. |
| Dicts.Dict.Put | lib/runner.js:442 | `this[obj][key] = v`: the key maps to `v`; a new key is appended to the key order and an existing key keeps its place; well-formedness is kept. |
| Dicts.Empty | lib/runner.js:76-82 | `{}` is well-formed, with no keys and no entries. |
| Runs.ReplayFinishes | lib/runner.js:90-109 | A run reaches `end` exactly when no event's listener throws. |
| Runs.ReplayStopsAtThrow | lib/runner.js:90-109 | Once a listener has thrown, the later events change nothing. |
| Runs.ObserveFiles | lib/runner.js:95-97 | One pass, failure or pending event appends the same record, under the test's root title, to the outcome store and to `total`; nothing else changes. A failure's record carries the error with `stack` taken from `test.err.stack`; the others carry no error. |
| Runs.ObserveAppends | lib/runner.js:93-97 | One handled event appends to bucket `b` under `k` exactly the record `FiledRecords` counts for it, and nothing for a timing event or another key or store. |
| Runs.ReplayFiledRecords | lib/runner.js:90-109 | Over a finished run, every bucket under every key grows by exactly `FiledRecords`: one record per pass, failure or pending event of a test under that root, in event order, in its outcome store and in `total`. |
| Runs.ReplayTotalKeys | lib/runner.js:90-109 | A finished run from the constructor's empty stores has a `total` key exactly for each root title under which some test was filed, and every bucket holds exactly the filed records. |
| Runs.ObserveKeepsConsistent | lib/runner.js:93-97 | Each listener that returns keeps four invariants: well-formed dictionaries; every record filed under its own root; `total` equal, as a multiset, to the union of the outcome stores; and `total` keys equal to the keys of the outcome stores, with no empty bucket. |
| Runs.TimedKeepsConsistent | lib/runner.js:408-415 | Recording a duration keeps the four invariants. |
| Runs.FilingKeepsConsistent | lib/runner.js:95-97 | Filing a pass, failure or pending test keeps the four invariants. |
| Runs.ObserveKeepsGrouped | lib/runner.js:428-430 | A filing event keeps every record under its own root title. |
| Runs.ObserveKeepsConserved | lib/runner.js:95-97 | A filing event keeps `total[k]` equal, as a multiset, to `passes[k] + fails[k] + pending[k]` for every key. |
| Runs.ObserveKeepsKeys | lib/runner.js:95-97 | A filing event keeps the keys of `total` equal to those of the outcome stores, and keeps every `total` bucket non-empty. |
| Runs.ReplayKeepsConsistent | lib/runner.js:90-109 | Any event stream started from a consistent store (such as the constructor's) ends in a consistent store. |
| Runs.ConservedCounts | lib/runner.js:428-430 | Count conservation: for every key, the length of `total[k]` is the sum of the lengths of the three outcome buckets. |
| Runs.ReplayElapsed | lib/runner.js:408-415 | Over a finished run, each root's slot grows by the truthy durations of that root's tests and hooks. The `"total"` slot grows by all of them, plus a second time those of a root titled `"total"`. |
| Runs.NoTotalRootTime | lib/runner.js:413-414 | If no root is titled `"total"`, the double-counted part is zero. |
| Runs.ReplayTimingKeys | lib/runner.js:410-411 | Every test or hook that ended has a slot for its root, and the `"total"` slot exists, even for a zero or undefined duration; no slot is ever removed. |
| Runs.Replay | lib/runner.js:90-109 | `run` as a fold of the listeners over the event list, stopping at the first listener that throws; its properties are stated by the `Replay…` lemmas. |
| Runners.Runner.constructor | lib/runner.js:76-82 | The five stores start as the empty store. |
| Runners.Runner.AddData | lib/runner.js:440-444 | The fields afterwards are `Added` applied to the old fields. |
| Runners.Runner.SetDuration | lib/runner.js:408-415 | The fields afterwards are `Timed` applied to the old fields; the method makes the same four conditional updates as the source. |
| Runners.Runner.SetData | lib/runner.js:424-431 | Returns false exactly when `Filed` throws, and then the fields are unchanged. Otherwise the fields afterwards are `Filed` of the old fields, built by one `AddData` per key in order. |
| Runners.Runner.Run | lib/runner.js:90-109 | The fields afterwards are the `Replay` of the events. A result is returned exactly when the run finishes, and it is the published object. |
| Runners.Runner.GenerateReport | lib/runner.js:119-254 | The text or error returned, and the data object afterwards, are those of `Report` on the old data. A null data object gives `NoContents`, unless the suite name is missing. |
| Runners.RecordCountConserved | lib/runner.js:187-201 | Over a conserved store, the records under the keys of `total` number as many as the outcome-store records under those keys. |
| Runners.GrandTotals | lib/runner.js:187-202 | For a run's results, `totalPass + totalFail + totalSkip` is the number of passed, failed and pending records over all suites. |
| Reports.Repeat | lib/runner.js:129-131 | `c.repeat(n)` has length `n`, and every character is `c`. |
| Reports.NatToString | lib/runner.js:158-160 | A printed count is a non-empty string of decimal digits whose decimal value (`DecimalValue`) is the count, with no leading zero unless the count is 0. |
| Reports.Banner | lib/runner.js:129-131 | The title block; `BannerShape` states its layout. |
| Reports.BannerWidth | lib/runner.js:129-131 | The row width is `Math.max(name.length, 12) + 2`: at least 14, at least the name plus 2, and equal to one of them. |
| Reports.StarRow | lib/runner.js:129-131 | A star row is the opening character, `w` stars and the closing character. |
| Reports.BannerMiddle | lib/runner.js:129-130 | The middle lines are two newlines and two spaces, the name, a newline, `w / 2 - 6` spaces, and `Test Results` followed by two newlines; their total length is stated. |
| Reports.BannerShape | lib/runner.js:127-131 | The banner is `/`, `BannerWidth` stars and `\`; two newlines and two spaces; the name; a newline; `w / 2 - 6` spaces; `Test Results` and two newlines; `\`, the same number of stars and `/`; and two closing newlines. Its total length is stated. |
| Reports.FileText | lib/runner.js:157 | `test.file \|\| test.parent.file`: a non-empty own file wins. An empty or missing own file prints the parent's `file`, or `undefined` when the parent has none. The access throws exactly when the own file is empty or missing and there is no parent. |
| Reports.FirstFile | lib/runner.js:157 | An empty `total` bucket throws. Otherwise the file of the first record is printed exactly when `FileText` succeeds. |
| Reports.TotalDuration | lib/runner.js:161 | `msToString(t) \|\| +t \|\| '0ms'`: a non-empty `msToString` result is printed; otherwise a truthy duration is printed in decimal, and a zero or undefined one as `0ms`. The text is never empty. |
| Reports.Duration | lib/runner.js:174 | `msToString(t) \|\| +t`: a non-empty `msToString` result is printed; otherwise a defined duration is printed in decimal (`0` for a zero), and an undefined one as `NaN`. The text is never empty. |
| Reports.ErrorText | lib/runner.js:175 | `stripAnsi(error.stack \|\| error.message)`: a non-empty stack is printed, otherwise the message. |
| Reports.FailureBlock | lib/runner.js:172-175 | Block `n` opens with `Failure n:` and a blank line, with `n` in decimal, and ends with a newline. |
| Reports.CountLines | lib/runner.js:158-160 | The Passes, Failures and Skipped lines, each with its count and its percentage of the suite's own test count. |
| Reports.SingleDetails | lib/runner.js:157-162 | The File, count, Duration and Start Time lines of the one-suite overview. |
| Reports.MultiTotals | lib/runner.js:205-209 | The grand-total, Total Duration and Start Time lines of the multi-suite overview. |
| Reports.SuiteHeading | lib/runner.js:222-224 | The `‖====` heading with the suite's name. |
| Reports.FailurePieces | lib/runner.js:170-178 | A listing of n failures has 2n - 1 pieces. |
| Reports.FailureListingShape | lib/runner.js:170-178 | The even pieces are the blocks numbered 1 to n, in stored order. The n - 1 odd pieces are the `------` separator, so no separator follows the last block. |
| Reports.ListFailures | lib/runner.js:170-178 | The loop's text is the concatenation of those pieces. A failure record without an error throws. |
| Reports.ClassifyCases | lib/runner.js:189-199 | A record counts as passed exactly when its state is `'passed'`, as failed exactly when it is `'failed'`, and as skipped otherwise; it counts exactly once. |
| Reports.Classify | lib/runner.js:189-199 | The `switch` on `test.state`; `ClassifyCases` states its cases. |
| Reports.CountStates | lib/runner.js:187-201 | The nested loops compute the tally of all records under every key of `total`, and its three counts add up to the number of those records. |
| Reports.TallyOfCounts | lib/runner.js:188-200 | Every record of one bucket is counted exactly once. |
| Reports.TallyKeysCounts | lib/runner.js:187-202 | Every record under the counted keys is counted exactly once. |
| Reports.SuiteSection | lib/runner.js:212-249 | One suite's block succeeds exactly when its first `total` record gives a file and all its failure records carry errors; any failure is `MalformedData`. |
| Reports.SuiteSectionTrailer | lib/runner.js:248 | The block of a suite with failures ends with the `=====` line. |
| Reports.Sections | lib/runner.js:212-250 | The suite blocks fail only with `MalformedData`. |
| Reports.SectionsSucceed | lib/runner.js:212-250 | The suite blocks are produced exactly when no suite's block throws. |
| Reports.FillKey | lib/runner.js:150-152 | After the back-fill, `k` has all three buckets. Only empty buckets under `k` are added, and `total` and `timeTaken` are unchanged. |
| Reports.FilledThrough | lib/runner.js:212-218 | The multi-suite loop never changes `total` or `timeTaken`. |
| Reports.FilledThroughOnlyFills | lib/runner.js:212-218 | The loop only adds empty buckets, only under the keys it visits, and leaves every existing bucket as it was. |
| Reports.FilledThroughCovers | lib/runner.js:212-218 | When no suite throws, every key of `total` ends with all three buckets. |
| Reports.FilledThroughStops | lib/runner.js:212-226 | Whichever suite `j` throws, the loop has touched no key after `j`: every bucket it added is empty and under a key up to `j`. |
| Reports.FilledThroughFillsToFailure | lib/runner.js:212-226 | When suite `j` is the first that throws, every key up to and including `j` has all three buckets. |
| Reports.FilledThroughAtFailure | lib/runner.js:212-226 | When suite `j` is the first that throws, the loop's data is the data after the suites before `j`, with key `j` back-filled. |
| Reports.FilledThroughAfterFailure | lib/runner.js:212-226 | After the first suite that throws, the data stays as it is. |
| Reports.Report | lib/runner.js:119-125 | An empty or missing suite name throws `NoSuiteName` and leaves the data untouched. A missing data object throws `NoContents`. Any other failure is `MalformedData`. |
| Reports.SingleText | lib/runner.js:144-179 | The one-suite report fails only with `MalformedData`. |
| Reports.MultiText | lib/runner.js:180-251 | The report over zero or several suites fails only with `MalformedData`. |
| Reports.SingleLayout | lib/runner.js:142-156 | A one-suite report continues after the title with `Overview:` and the suite's name. |
| Reports.MultiLayout | lib/runner.js:204 | A report over zero or several suites continues after the title with `Overview:` (line 142) and the number of suites. |
| Reports.ReportLayout | lib/runner.js:127-156 | A produced report starts with the banner and `Overview:`. With exactly one key in `total` it goes on with that suite's name; otherwise with `Object.keys(total).length` (line 204). |
| Reports.ReportOnlyBackFills | lib/runner.js:150-152 | `generateReport` writes only empty buckets into the data, only under keys of `total`, and leaves every existing bucket, `total` and `timeTaken` unchanged (also lines 216-218). |
| Reports.ReportFillsEveryKey | lib/runner.js:216-218 | After a produced report, every key of `total` has all three buckets (also lines 150-152). |
| Reports.ReportStopsAtMalformedSuite | lib/runner.js:212-226 | With several suites, if suite `j` is malformed, the report throws `MalformedData` and no key after `j` has been touched. If `j` is the first malformed suite, every key up to and including `j` has all three buckets. |
| Reports.BackFilledReads | lib/runner.js:150-152 | Back-filling never changes what a bucket reads as. |
| Reports.SectionAfterFill | lib/runner.js:216-230 | A suite's block reads the same from the back-filled data as from the original. |
| Reports.SectionsAfterFill | lib/runner.js:212-250 | All suite blocks read the same from back-filled data as from the original. |
| Reports.SingleTextAfterFill | lib/runner.js:144-179 | The one-suite text reads the same from back-filled data. |
| Reports.MultiTextAfterFill | lib/runner.js:180-251 | The text over zero or several suites reads the same from back-filled data. |
| Reports.ReportRepeatable | lib/runner.js:119-254 | Generating the report again from the data object the first call back-filled gives the same text or the same error; the Start Time clock is a value of the `Formatter`. |
| Reports.FilledThroughStep | lib/runner.js:212-218 | One more suite handled by the loop back-fills one more key and adds one block. |
| Reports.ReportData.Fill | lib/runner.js:150-152 | Updates the data object in place to `FillKey` of its old value. |
| Reports.SuiteBlock | lib/runner.js:216-249 | One suite's block, built with the failure loop, equals `SuiteSection`. |
| Reports.RenderSingle | lib/runner.js:144-179 | The one-suite branch returns `SingleText` and leaves the data as `FillKey` of its old value. |
| Reports.RenderSuites | lib/runner.js:180-251 | The multi-suite branch returns `MultiText` and leaves the data as `FilledThrough` of its old value. |

## Left out

- The constructor's file discovery and validation (lib/runner.js:39-73), `_generateHelp`, `_processArgs` and `_resetMocha`. They are file-system and command-line work outside the stores and the report.
- Mocha itself. The event emitter and the Promise are replaced by a list of events consumed in order; `end` is the end of that list. A listener that throws stops the model's run, because the error escapes the emitter and `resolve` is never called.
- `helper.msToString`, the rounded percentage, `new Date(Date.now() - t)` and `stripAnsi` are uninterpreted `Formatter` fields. The clock and floating-point arithmetic are therefore not modelled.
- Reports.Duration: `+failure.test.duration` and `+timeTaken[k]` print a non-negative integer, or `NaN` for undefined. Other JavaScript number formats are not modelled.
- Every event carries a test object, so a root title is always a string. An event without a test, whose root title would be `null` and be stored under the key `"null"`, is not modelled. A parent that is `null` rather than undefined behaves the same in the source and is not distinguished.
- Dicts: `Object.keys` lists integer-like keys first in ascending order. The model keeps plain insertion order for all keys. Keys inherited from `Object.prototype` (such as `constructor`) are not modelled.
- Reports.ReportRepeatable: the Start Time lines read `Date.now()` on every call, so two real calls made at different moments differ in those lines. The model takes the clock as the `startTime` field of the `Formatter`, so the lemma compares two calls at the same moment.
- Aggregation.Store.Bump: on a slot that does not exist the source computes `undefined + duration`, which is `NaN`; the model reads the slot as 0. In `_setDuration` the slot is always created first, so this case never arises there.
- Reports.BannerShape: `suiteName.length` counts UTF-16 code units; the model counts the characters of a `seq<char>`.
- Reports.Report: a data object missing one of its five fields, or holding a non-array bucket, is not modelled; `Results` always carries all five as dictionaries.
- `test.state` is modelled as an optional string; other JavaScript values in that field are not modelled.
- `generateReport` mutates the very dictionaries that `run` resolved with, since they are shared with the Runner's fields. The model copies the results into a separate `ReportData` object, so this sharing is not captured.
