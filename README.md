# klog core: selector resolution and JSON log-line prettifying

klog streams the logs of Kubernetes pods to the terminal. This project models
the two pieces of pure logic in `src/traits.rs` and `src/util.rs` and proves
properties of them:

- **Label-selector resolution** (`src/traits.rs`). The `SpecSelector` trait
  reads the optional `LabelSelector` out of the spec of a Deployment,
  StatefulSet, DaemonSet, Job or CronJob. The `HasSpec` trait does the same
  from the workload resource itself. Deployment, StatefulSet and DaemonSet
  specs always carry a selector. A Job spec may omit it. A CronJob's selector
  is the selector of the Job spec inside its job template, and both that
  Job spec and the selector may be absent. The implementors of each trait
  become one tagged union (`Traits.WorkloadSpec`, `Traits.Workload`), and
  each trait method becomes one function over that union. A `LabelSelector`
  is only passed along, never inspected.
- **The JSON log-line prettifier** (`get_pretty_json` in `src/util.rs`). It
  picks three fields from a JSON value. For each field it walks a fixed list
  of keys in priority order and takes the first whose value is a JSON string:
  `ts`/`timestamp`/`time` for the timestamp, `level`/`lvl`/`severity` for the
  level, `msg`/`message`/`log` for the message. When no key matches it uses
  the defaults `no-ts`, `INFO` and `no-msg`. It prints `"[level] ts: msg"`.
  JSON values are the datatype `JsonValue.Json`. `Get` and `AsStr` model
  serde_json's `Value::get` and `Value::as_str`.

Files: `wrappers.dfy` (Rust's `Option`), `traits.dfy` (module `Traits`),
`json.dfy` (module `JsonValue`), `util.dfy` (module `Util`).

To state that the printed line is well formed, the model pairs `Format` with
an inverse, `ParseLine`. `ParseLine` splits a line at the first `]` and the
first `": "` after it. `ParseFormat` proves that the two are inverse whenever
the level contains no `]` and the timestamp no `": "`. Without these
conditions the line is ambiguous.

## Model

| member | source | states |
|---|---|---|
| `Traits.SpecSelector` | src/traits.rs:11-41 | Deployment, StatefulSet and DaemonSet specs always give `Some` of their own selector. A Job spec gives nothing exactly when its selector is absent, and otherwise that selector. A CronJob spec gives nothing when its job template has no spec, and otherwise exactly what that Job spec gives. |
| `Traits.Spec` | src/traits.rs:50-94 | `HasSpec::spec` is present exactly when the resource's spec is. It is of the resource's own kind and is the resource's spec unchanged. |
| `Traits.Selector` | src/traits.rs:50-102 | Requires a spec for Deployment, StatefulSet and DaemonSet, where `unwrap` would panic. Those kinds then always resolve to a selector. A resource without a spec resolves to nothing. A resource with a spec resolves to what `SpecSelector` gives for that spec. |
| `Traits.SelectorAgreesWithSpec` | src/traits.rs:44-102 | The two traits agree: a resource with a spec resolves to the selector its spec resolves to, and a resolved selector implies that a spec is present. This is a corollary of `Selector`'s contract. |
| `Traits.MandatorySelectorResolves` | src/traits.rs:172-214 | A Deployment, StatefulSet or DaemonSet holding a spec with selector `sel` resolves to `Some(sel)`, both on the resource and on its spec. |
| `Traits.JobSelectorResolves` | src/traits.rs:80-88 | A Job resolves to a selector exactly when it has a spec with a selector, and then to that selector. |
| `Traits.CronJobSelectorIsTemplateJobSelector` | src/traits.rs:90-102 | A CronJob without a spec, or whose job template has no spec, resolves to nothing. Otherwise it resolves to what a Job holding the template's Job spec resolves to. |
| `Wrappers.Option.UnwrapOr` | src/util.rs:29 | `unwrap_or` gives the carried value when there is one and the default otherwise. |
| `Util.StrField` | src/util.rs:28 | The closure `value.get(k)?.as_str()` gives a string exactly when the value is an object whose field `k` is a JSON string, and then that string. |
| `Util.FindStr` | src/util.rs:26-39 | The `find_map` search finds nothing exactly when no key in the list holds a JSON string. Otherwise its result is the string of some key all of whose predecessors hold no string. |
| `Util.Pick` | src/util.rs:26-39 | A field is the string of the earliest key that holds one. When no key holds a string it is the default. |
| `Util.Timestamp` | src/util.rs:22-29 | The timestamp is the string of `ts` if it holds one, else of `timestamp`, else of `time`, else `no-ts`. |
| `Util.Level` | src/util.rs:24-34 | The level is the string of `level` if it holds one, else of `lvl`, else of `severity`, else `INFO`. |
| `Util.Message` | src/util.rs:23-39 | The message is the string of `msg` if it holds one, else of `message`, else of `log`, else `no-msg`. |
| `Util.Format` | src/util.rs:41 | The line is `[`, the level, `] `, the timestamp, `: `, the message, in that order. Each piece lies at its fixed offset and the length is the sum of the pieces plus five. |
| `Util.ParseFormat` | src/util.rs:41 | Splitting a formatted line at its first `]` and first `": "` gives back level, timestamp and message, when the level has no `]` and the timestamp no `": "`. |
| `Util.PrettyJson` | src/util.rs:21-42 | The output is `[`, the chosen level, `] `, the chosen timestamp, `: `, the chosen message, each at its fixed offset, and nothing else. |
| `Util.PrettyJsonReadsBack` | src/util.rs:41 | When the chosen level has no `]` and the chosen timestamp no `": "`, the three fields read back from the output are the chosen ones. |
| `Util.LineFromFields` | src/util.rs:41 | The output depends only on the three chosen fields: it is their `Format`. |
| `Util.EarliestStringKeyWins` | src/util.rs:26-39 | Priority: if the key at position `i` holds a string and no earlier key does, the search returns that string. Earlier keys may be absent or hold non-string values. This is a corollary of `FindStr`'s contract. |
| `Util.NonStringValueSkipped` | src/util.rs:28 | A candidate key whose value is not a JSON string is skipped, and the search continues with the next key. |
| `Util.FindStrDependsOnKeysOnly` | src/util.rs:26-39 | Two values whose listed keys hold the same strings give the same search result. |
| `Util.OnlyCandidateKeysMatter` | src/util.rs:21-42 | Two values whose nine candidate keys hold the same strings print the same line. |
| `Util.AddingOtherKeyIrrelevant` | src/util.rs:21-42 | Adding a key outside the nine candidates to an object leaves the line unchanged. |
| `Util.RemovingOtherKeyIrrelevant` | src/util.rs:21-42 | Removing a key outside the nine candidates from an object leaves the line unchanged. |
| `Util.AllDefaults` | src/util.rs:26-41 | When no candidate key holds a string, the line is exactly `[INFO] no-ts: no-msg`. |
| `Util.NoCandidateKeyGivesDefaults` | src/util.rs:105-112 | An object containing none of the nine keys prints `[INFO] no-ts: no-msg`. |
| `Util.NonObjectGivesDefaults` | src/util.rs:26-39 | A JSON value that is not an object prints `[INFO] no-ts: no-msg`, because `get` on it finds nothing. |
| `Util.StandardFieldsChosen` | src/util.rs:74-82 | For the test's object, `level`, `timestamp` and `message` are chosen, because `ts` and `msg` are absent. |
| `Util.StandardFieldsExample` | src/util.rs:74-82 | The test's object prints `Format("info", "2025-07-28T12:00:00Z", "Started up")`. |
| `Util.AltFieldsChosen` | src/util.rs:84-93 | For the test's object, `lvl`, `ts` and `msg` are chosen, because `level` is absent. |
| `Util.AltFieldsExample` | src/util.rs:84-93 | The test's object prints `Format("debug", "2025-07-28T12:01:00Z", "Service healthy")`. |
| `Util.LogFieldChosen` | src/util.rs:95-103 | For the test's object, `time` and `log` are chosen and the level defaults to `INFO`. |
| `Util.LogFieldExample` | src/util.rs:95-103 | The test's object prints `Format("INFO", "2025-07-28T12:02:00Z", "Request received")`. |
| `Util.MissingAllFieldsExample` | src/util.rs:105-112 | `{"foo": "bar"}` prints `[INFO] no-ts: no-msg`. |
| `Util.QuotedValuesChosen` | src/util.rs:114-123 | For the test's object, `level`, `ts` and `msg` are chosen. |
| `Util.QuotedValuesExample` | src/util.rs:114-123 | The test's object prints `Format("warn", "2025-07-28T12:03:00Z", "Extra quotes")`. |
| `Util.MessageAndTimestampChosen` | src/util.rs:125-133 | For the test's object, `ts` and `msg` are chosen and the level defaults to `INFO`. |
| `Util.MessageAndTimestampExample` | src/util.rs:125-133 | The test's object prints `Format("INFO", "2025-07-28T14:00:00Z", "system online")`. |

## Left out

- `src/k8s.rs` as a whole is left out. `stream_single_pod_logs` is asynchronous network I/O: fetching the pod, opening a log stream, reading lines and printing them. `get_pod_list_for_deployment` is a stub that fetches a Deployment and returns nothing.
- `src/main.rs` is left out. It parses the command line, builds a cluster client and streams the logs of exactly one named pod.
- `get_rnd_color` is left out because it depends on randomness. Terminal colouring is left out for the same reason.
- `maybe_parse_json` is left out. It wraps serde_json's parser, so JSON values are given to the model already parsed. Duplicate object keys are therefore not modelled.
- JSON numbers are kept only as their text (`JNumber`). The prettifier never reads them.
- `LabelSelector` keeps only its match labels, and the model never reads them. Match expressions and all other fields of the k8s_openapi types are left out. Only `spec`, `selector` and `job_template.spec` are read by `src/traits.rs`.
- The `unwrap` panic in `HasSpec::selector` for Deployment, StatefulSet and DaemonSet is modelled as a precondition of `Traits.Selector`, not as a panic.
- The unit-test examples state the expected line as `Format(level, ts, msg)` rather than as one string literal. Dafny does not prove equalities between string literals this long. The all-defaults line is stated literally.
