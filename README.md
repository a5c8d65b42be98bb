# Bloblang query function runtime

A model of the function runtime of Benthos' Bloblang query language
(`internal/bloblang/query`): a closed expression language whose functions
are evaluated against an immutable per-call context, where failures are
values rather than exceptions.

- `Values` — runtime values (string, integer, object), `Option`, `Result`,
  and `Lookup`, the descent through object fields along a path.
- `TargetPaths` — `TargetKind` (`TargetValue`, `TargetMetadata`,
  `TargetVariable`), `TargetPath`, and the splitting of a dotted path such
  as `"foo.bar.baz"` into segments (`DotPath`), with its inverse `JoinDots`.
- `Query` — the context (`Ctx`: variables, message batch, index), the
  function tree (`Throw`, `Literal`, `Var`, `Meta`, `Field`, and the method
  binding `Method(receiver, op)` with `op` one of `Catch(fallback)`,
  `Uppercase`, `Get(path)`), `Exec`, `QueryTargets`, and the registry
  (`InitFunction`, `InitMethod`, `NewFieldFunction`) that builds a tree by
  name and checks its arguments once, at construction.
- `QueryLaws` — the laws: deliberate failure and recovery, failure
  propagation through bound methods, the accessors' lookups and their exact
  failure messages, chained projection, and the soundness of `QueryTargets`
  (two contexts that agree on everything a function reports reading give it
  the same result).
- `QueryCases` — the concrete behaviours the test file asserts, stated as
  lemmas about trees built through the registry.

`Exec` is a Dafny function of the tree and the context. Replaying it
(test lines 133-147) therefore gives identical results by construction, and
it cannot change the context or any message (lines 149-156). A message's
content is never read at all: `Field` reads the parsed document and `Meta`
reads the metadata map. `QueryLaws.OnlyCurrentMessageRead` also proves that
only the message at the index is read.

Catch's argument: a static literal becomes a `Literal` function and a
function argument is used as it is. `QueryTargets` of a bound method is its
receiver's targets followed by the targets of a function-valued argument.

Failure messages fixed by the tests: `throw(msg)` fails with `msg`,
`variable '<name>' undefined` and `metadata value '<key>' not found`. No
test pins the text of the other failures: a message that is not JSON, a
path that is not found by `json`/field/`get`, a non-string given to
`uppercase`, and construction errors. This model picks its own wording for
those.

A design point the test file leaves open is what happens when a `json`,
field or `get` path is missing. The model treats it as a failure
(`path '<p>' not found`), in line with the runtime's error taxonomy, which
lists path-not-found failures; it does not yield a null value.

## Model

| member | source | states |
|---|---|---|
| `Query.InitFunction` | internal/bloblang/query/functions_test.go:20-25 | construction succeeds exactly for a registered name (`throw`, `var`, `meta`, `json`) with one static string argument; an unregistered name is `UnknownFunction`, bad arguments `InvalidArguments`; `throw`/`var`/`meta` build `Throw`/`Var`/`Meta` of the argument and `json` the field function of its dotted path |
| `Query.InitMethod` | internal/bloblang/query/functions_test.go:27-32 | binding succeeds exactly for `catch` with one argument, `uppercase` with none, `get` with one static path; otherwise `UnknownMethod`/`InvalidArguments`; the result is a method node on the given receiver binding `Catch` of the argument's function, `Uppercase`, or `Get` of the dotted path's segments, and its targets are the receiver's followed by the dynamic arguments' |
| `Query.Exec` | internal/bloblang/query/functions_test.go:133-147 | every failure `Exec` returns is one the tree can be seen to produce statically (`Failures`): its `throw` messages, its accessors' lookup failures, its methods' own failures, and under `catch` only the fallback's; the evaluation laws below specify each node |
| `Query.QueryTargets` | internal/bloblang/query/functions_test.go:207-210 | every metadata or variable target names exactly one key; its meaning is given by `QueryLaws.TargetsSound` and `QueryLaws.AccessorTargetExact` |
| `QueryLaws.ThrowAlwaysFails` | internal/bloblang/query/functions_test.go:42-45 | `throw(msg)` fails in every context with exactly `msg` and reports no targets |
| `QueryCases.ThrowCase` | internal/bloblang/query/functions_test.go:42-45 | `throw("foo")` is built by the registry and fails with `"foo"` in any context |
| `QueryLaws.CatchLaw` | internal/bloblang/query/functions_test.go:46-52 | a failing receiver is replaced by the fallback's result; a succeeding one passes through unchanged; `catch` fails iff both receiver and fallback fail |
| `QueryLaws.CatchLiteralNeverFails` | internal/bloblang/query/functions_test.go:46-52 | `catch` with a literal fallback never fails: it yields the receiver's value when that succeeds and the literal otherwise |
| `QueryLaws.NoFailuresNeverFails` | internal/bloblang/query/functions_test.go:46-52 | a tree whose statically possible failures are none always succeeds |
| `QueryLaws.ThrowCatchRecovers` | internal/bloblang/query/functions_test.go:46-52 | `throw(x).catch(y)` evaluates to whatever `y` evaluates to, for every `x`, `y` and context |
| `QueryCases.ThrowCatchCase` | internal/bloblang/query/functions_test.go:46-52 | `throw("foo").catch("bar")` is built by the registry with a literal fallback and gives `"bar"` in any context |
| `QueryLaws.MethodPropagatesFailure` | internal/bloblang/query/functions_test.go:53-77 | a method other than `catch` does not run on a failing receiver: the receiver's failure comes out unchanged |
| `QueryLaws.UppercaseOnValue` | internal/bloblang/query/functions_test.go:53-62 | `uppercase` succeeds exactly when the receiver yields a string, giving its upper-cased form; any other kind is a type mismatch |
| `Query.UpperAscii` | internal/bloblang/query/functions_test.go:53-62 | upper-casing keeps the length, maps each character by ASCII upper-casing, and leaves no lower-case ASCII letter |
| `QueryLaws.UppercaseIdempotent` | internal/bloblang/query/functions_test.go:53-62 | upper-casing an upper-cased string changes nothing |
| `QueryCases.VarUppercaseCase` | internal/bloblang/query/functions_test.go:53-62 | with `foo = "foobar"`, `var("foo").uppercase()` is built by the registry and gives `"FOOBAR"` |
| `Values.Lookup` | internal/bloblang/query/functions_test.go:63-77 | an empty path yields the value itself; a one-segment path is found exactly when the value is an object holding that field, and yields the field's value; a successful longer descent starts at an object holding the first segment |
| `Values.LookupAppend` | internal/bloblang/query/functions_test.go:63-77 | descending along `p + q` is descending along `p`, then along `q` |
| `QueryLaws.GetField` | internal/bloblang/query/functions_test.go:63-77 | `get(k)` on a receiver yielding an object that holds `k` gives that field's value; on any other success value it fails with the path-not-found message |
| `QueryLaws.GetChain` | internal/bloblang/query/functions_test.go:63-77 | `get(p).get(q)` and `get(p + q)` succeed together and then give the same value |
| `QueryCases.VarGetUppercaseCase` | internal/bloblang/query/functions_test.go:63-77 | with `foo = {bar: "foobar"}`, `var("foo").get("bar").uppercase()` gives `"FOOBAR"` |
| `QueryCases.GetBindCase` | internal/bloblang/query/functions_test.go:63-68 | the registry binds `get("bar")` as a projection along the one-segment path `["bar"]` |
| `QueryLaws.VarLookup` | internal/bloblang/query/functions_test.go:78-82 | `var(name)` succeeds iff the variable is defined, yielding its value; otherwise it fails with exactly `variable '<name>' undefined` |
| `QueryCases.VarUndefinedCase` | internal/bloblang/query/functions_test.go:78-82 | with no variables, `var("foo")` fails with `variable 'foo' undefined` |
| `QueryLaws.MetaLookup` | internal/bloblang/query/functions_test.go:83-114 | `meta(key)` succeeds iff the index is inside the batch and that message's metadata holds `key`, yielding its value; otherwise, an empty batch included, it fails with exactly `metadata value '<key>' not found` |
| `QueryCases.MetaCase` | internal/bloblang/query/functions_test.go:83-91 | on a one-message batch with metadata `foo = foobar`, `meta("foo")` is built by the registry and gives `"foobar"` |
| `QueryCases.MetaMissingCase` | internal/bloblang/query/functions_test.go:92-96 | on an empty batch, `meta("foo")` fails with `metadata value 'foo' not found` |
| `QueryLaws.OutOfRangeIndex` | internal/bloblang/query/functions_test.go:92-96 | with an index outside the batch (an empty batch included), `meta(k)` fails with `metadata value '<k>' not found` and every field read fails as not JSON, for all `k` and paths |
| `QueryLaws.OnlyCurrentMessageRead` | internal/bloblang/query/functions_test.go:133-140 | replacing any message other than the one at the index leaves every function's result unchanged |
| `TargetPaths.SplitDots` | internal/bloblang/query/functions_test.go:177-180 | splitting at '.' gives one more segment than there are dots, and no segment contains a dot |
| `TargetPaths.DotPath` | internal/bloblang/query/functions_test.go:177-180 | the empty path string, and only it, denotes the empty segment list; no segment contains a dot |
| `TargetPaths.JoinSplitDots` | internal/bloblang/query/functions_test.go:177-180 | joining the segments of a split gives the original string |
| `TargetPaths.SplitJoinDots` | internal/bloblang/query/functions_test.go:177-180 | splitting the join of non-empty dot-free segments gives the segments back |
| `TargetPaths.DotPathRoundTrip` | internal/bloblang/query/functions_test.go:177-180 | `DotPath` and `JoinDots` are mutually inverse on path strings and on dot-free segment lists other than `[""]` |
| `TargetPaths.DotPathSingle` | internal/bloblang/query/functions_test.go:63-77 | a non-empty dot-free path string is a single segment (as in `get("bar")`) |
| `QueryCases.FooBarBazSegments` | internal/bloblang/query/functions_test.go:177-180 | `"foo.bar.baz"` splits into `["foo","bar","baz"]` |
| `Query.NewFieldFunction` | internal/bloblang/query/functions_test.go:183-186 | a field function is built on dot-free segments that join back to its dotted path, empty exactly for the empty path (so the segmentation is the split at '.') |
| `QueryLaws.FieldKey` | internal/bloblang/query/functions_test.go:176-187 | a field read of `[k]` yields field `k` of the current document, fails as path-not-found when the document lacks it, and as not JSON when there is no document |
| `QueryLaws.FieldThenGet` | internal/bloblang/query/functions_test.go:176-187 | a field read of `p` followed by `get(q)` succeeds exactly when the field read of `p + q` does, with the same value |
| `QueryCases.ThrowTargetsCase` | internal/bloblang/query/functions_test.go:173-175 | `throw("foo")` reports no targets |
| `QueryCases.JsonTargetsCase` | internal/bloblang/query/functions_test.go:176-181 | `json("foo.bar.baz")` is built by the registry and reports exactly one value path `["foo","bar","baz"]` |
| `QueryCases.FieldTargetsCase` | internal/bloblang/query/functions_test.go:182-187 | the field function of `"foo.bar.baz"` reports exactly one value path `["foo","bar","baz"]` |
| `QueryCases.MetaVarTargetsCase` | internal/bloblang/query/functions_test.go:188-199 | `meta("foo")` reports one metadata path `["foo"]` and `var("foo")` one variable path `["foo"]` |
| `QueryLaws.InitFunctionTargets` | internal/bloblang/query/functions_test.go:169-200 | every registered function built from a string reports no targets (`throw`) or exactly one path of its accessor's kind (`var`, `meta`, `json` with the dotted path's segments) |
| `QueryLaws.TargetsSound` | internal/bloblang/query/functions_test.go:207-210 | two contexts that agree on every location a function reports give that function the same result |
| `QueryLaws.NoTargetsConstant` | internal/bloblang/query/functions_test.go:173-175 | a function reporting no targets gives the same result in every context |
| `QueryLaws.AccessorTargetExact` | internal/bloblang/query/functions_test.go:188-199 | for `var`, `meta` and field reads the single reported target is exact: results agree in two contexts iff the contexts agree on that location |
| `QueryLaws.VarTargetExact` | internal/bloblang/query/functions_test.go:194-199 | `var(name)` gives equal results in two contexts iff both lack the variable or both hold the same value |
| `QueryLaws.MetaTargetExact` | internal/bloblang/query/functions_test.go:188-193 | `meta(key)` gives equal results in two contexts iff their current messages agree on `key` |

## Left out

- `env`: it reads the mutable process environment, which is external state.
- `random_int`: randomness, seeding and the distribution checks cannot be
  stated as invariants here, and the generator is not part of this model.
- `timestamp_unix_nano` and the concurrent stress test: wall-clock time and
  thread safety are outside a sequential model.
- The bound value of a context (`WithValue`): it is exercised only by the
  `random_int` tests, so field functions always read the message at the index.
- Named maps (`Maps` in the context) and the first result of
  `QueryTargets` (the targets context): the tests pass empty maps and ignore
  that first result.
- The message library: a message is its raw content, its document (`None`
  when the content is not JSON) and its metadata map. JSON parsing, the
  library's own index rules and the meaning of an empty metadata value are
  not modelled. An index outside the batch selects an empty message. The
  raw content is never read, and nothing ties the document to it: the
  document stands for the result of parsing the content.
- The context's `NewMsg` field: in every context the tests build it is the
  message at the index, so the model has no separate field and uses the
  message at the index (`Query.Current`) throughout.
- The escape sequences of the dotted-path syntax: a path is split at every
  '.' only.
- `Query.UpperAscii`: maps ASCII letters only, not full Unicode case mapping.
- Integers are unbounded; no operation in this core does arithmetic on them,
  so the 64-bit width plays no part.
- Built-ins and methods other than `throw`, `var`, `meta`, `json`, `catch`,
  `uppercase` and `get` are not part of this model.
