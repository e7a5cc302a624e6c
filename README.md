# redis-template, modelled in Dafny

redis-template keeps files in line with a Redis key-value store. Each template comes from
a `-template source:target:action` descriptor. A template's body looks values up in the
store with `key` and `keyOrDefault`. Whenever a message is published on the Redis channel,
every template is rendered again. A template whose output differs from the last output
applied for it has that output written to its target file and has its action run with
`sh -c`.

This project models the core of that pipeline:

- `config.dfy` (module `Config`): the descriptor parser `ParseTemplateFlag`, its printer
  `TemplateFlag.String`, and the flag list `TemplateFlags` with its `Set` and `String`
  (a class over a `seq`). It also holds the two lookups, `key` and `keyOrDefault`, over a
  store map and a connection whose dial, `GET` and close each succeed or fail.
- `parser.dfy` (module `Parser`): the older copy of the parser and of `key` in
  `pkg/parser.go`. It is proved to agree with `Config` on every input.
- `engine.dfy` (module `Engine`): what the two engines share.
  - The world's decisions for one execution: the render result, the write outcome and the
    action outcome.
  - The effects performed.
  - The replies of the subscription.
  - The shared map of previous outputs (`RenderCache`, a class).
  - The file system and shell (`Host`, a class whose ghost `log` records every attempted
    write and command).
- `listen.dfy` (module `Listen`): `executeTemplate`, `update` and `Listen` of
  `pkg/listen.go`.
  - `ExecuteTemplate`, `Update`, `Serve` and `Listen` are methods over the `RenderCache`
    and the `Host`, with loops.
  - Each is proved equal to a specification function (`Executed`, `Updated`, `Served`,
    `Listened`) on the cache, the effect log and the result.
  - The lemmas prove the properties listed below about those functions.
- `poller.dfy` (module `Poller`): `Poll` of `pkg/poller.go`.
  - The initial pass is fatal on the first error and runs no action.
  - The reload loop logs an error and continues with the next template.
  - The methods `Prime`, `ReloadTemplate`, `Reload`, `Receive` and `Poll` are proved
    against `Primed`, `Reloaded1`, `Reloaded`, `Polled` and `PollRun`.
- `strings.dfy` and `wrappers.dfy`: `strings.IndexRune`, plus `Option` and `Result`.

Rendering, writing and running a command are outside the model. Each execution receives an
`Engine.Attempt` that says what the world decided:
- the render output or the render error;
- whether the write succeeds;
- whether the command succeeds.

A published message carries one attempt per template. A missing cache entry reads as `""`,
as Go's map index does. So an output of `""` looks unchanged the first time it is rendered.

The target in `listen.go` is a pointer, and the file is written whenever it is non-nil
(the comment at `listen.go:74` says a nil target is not persisted). The model writes only
when the target is present and non-empty (`Listen.HasTarget`). `config.go` declares
`Target` as a plain string, and `ParseTemplateFlag` turns a missing target into `""`, so
an empty target is how "no target" reaches the engine.

## Model

| member | source | states |
|---|---|---|
| Strings.IndexRune | pkg/config.go:149 | Finds the first occurrence of the rune: -1 exactly when it is absent; otherwise that position holds it and no earlier one does |
| Strings.IndexRuneAfter | pkg/config.go:154 | In `p + ":" + q` with no colon in `p`, the first colon is at `|p|`, which is where the second search starts |
| Config.ParseTemplateFlag | pkg/config.go:148-169 | Fails, with "invalid template given", exactly when the descriptor has no colon. Otherwise source and target hold no colon, and the input is `source:target` with an empty action or `source:target:action` |
| Config.JoinedUnique2 | pkg/config.go:154-159 | Split at the first colon, `source:target` determines source and target |
| Config.JoinedUnique3 | pkg/config.go:161-168 | Split at the first two colons, `source:target:action` determines all three fields; the action may contain colons |
| Config.NotJoined2 | pkg/config.go:154-168 | A descriptor with two colons is never also a one-colon descriptor with a colon-free target |
| Config.ParseOneColon | pkg/config.go:154-159 | One colon: the text before it is the source, the rest is the target, and the action is empty |
| Config.ParseTwoColons | pkg/config.go:161-168 | Two or more colons: the source ends at the first colon, the target at the second, and the action is the whole rest |
| Config.PrintThenParse | pkg/config.go:66-72 | Printing a flag whose source and target hold no colon, then parsing the result, gives the same flag back |
| Config.ParseThenPrint | pkg/config.go:66-72 | Parsing and printing gives back the same descriptor exactly when the descriptor is not `s:t:`, whose empty action makes the printer drop the second colon |
| Config.FlagString | pkg/config.go:65-72 | `TemplateFlag.String`: starts with the source and a colon; holds the three fields plus one colon, or two colons when there is an action |
| Config.ParserTableNoColon | pkg/config_test.go:11-15 | "foobar" is rejected with the parser's error |
| Config.ParserTableOneColon | pkg/config_test.go:17-48 | "foo:bar", "foo:" and ":" parse to the fields the test table expects |
| Config.ParserTableTwoColons | pkg/config_test.go:26-33 | "foo:bar:baz" parses to source foo, target bar, action baz |
| Config.ParserTableDoubleColon | pkg/config_test.go:49-53 | "::" parses to three empty fields |
| Config.ParserTablePaths | pkg/config_test.go:54-70 | The path-shaped descriptors of the test table parse to the expected source, target and action |
| Config.ConcatMapAppend | pkg/config.go:49-54 | Writing the strings of two lists into one buffer gives the first list's text, then the second's |
| Config.Printed | pkg/config.go:48-55 | What `TemplateFlags.String` prints: every flag's string in order, with no separator (a definition; its properties are the `Printed*` lemmas) |
| Config.PrintedAppend | pkg/config.go:48-55 | The printout of `a + b` is the printout of `a` followed by that of `b` |
| Config.PrintedAfterSet | pkg/config.go:37-55 | After a successful `Set` of a descriptor in printed form, `String` prints the old text followed by that descriptor |
| Config.PrintedIsAmbiguous | pkg/config.go:48-55 | With no separator, the lists [a:b, c:d] and [a:bc:d] print alike, so the list cannot be recovered from `String` |
| Config.TemplateFlags.constructor | pkg/config.go:34 | A new flag list is empty |
| Config.TemplateFlags.Set | pkg/config.go:37-45 | Success appends exactly the parsed flag and returns no error. Failure returns the parser's error and leaves the list unchanged |
| Config.TemplateFlags.String | pkg/config.go:48-55 | Returns every flag's string in order, concatenated (loop invariant over the written prefix) |
| Config.Key | pkg/config.go:107-128 | Fails on a non-string argument first. Succeeds exactly when the key is stored and the dial, `GET` and close all succeed, and then gives the stored string. A missing key after a good dial and `GET` is the missing-key error |
| Config.KeyOrDefault | pkg/config.go:81-106 | Fails on a non-string argument first. Succeeds exactly when the dial, `GET` and close succeed, giving the stored string or, when the key is missing, the fallback |
| Config.KeyOrDefaultExtendsKey | pkg/config.go:81-128 | With a good close, both lookups agree wherever `key` succeeds. `keyOrDefault` gives its fallback exactly where `key` reports a missing key |
| Parser.ParseTemplateFlag | pkg/parser.go:64-85 | Same contract as config.go's parser: fails exactly without a colon, and otherwise the input is rebuilt from the colon-free source and target and the action |
| Parser.ParsersAgree | pkg/parser.go:64-85 | The parsers of parser.go and config.go fail on the same inputs with the same message, and agree on every field otherwise |
| Parser.SplitRules | pkg/parser.go:70-84 | parser.go's copy splits `s:t` and `s:t:a` into exactly those fields |
| Parser.Key | pkg/parser.go:29-50 | parser.go's `key`: non-string argument rejected; succeeds exactly when stored and dial, `GET` and close succeed, with the stored string |
| Parser.KeysAgree | pkg/parser.go:29-50 | The two copies of `key` give the same value or the same error on every input |
| Engine.RenderCache.constructor | pkg/listen.go:78 | The map of previous executions starts empty |
| Engine.Previous | pkg/listen.go:122 | Go's map index: the stored output, or `""` for a missing entry, the value every change test compares against (also poller.go:35 and 65; a definition with no contract of its own) |
| Engine.RenderCache.Lookup | pkg/listen.go:121-123 | Reading an entry gives the stored output, or `""` when there is none |
| Engine.RenderCache.Store | pkg/listen.go:138-140 | Storing replaces exactly that one entry |
| Engine.Host.Write | pkg/listen.go:128 | A write is recorded in the effect log, and its success is what the world decided |
| Engine.Host.Run | pkg/config.go:137-143 | A `sh -c` run of the action is recorded in the effect log, and its success is what the world decided |
| Listen.Executed | pkg/listen.go:111-144 | A render error returns at once with no effect. An unchanged output does nothing. A changed output writes (when there is a target), then runs the action, stopping at the first failure; it succeeds exactly when both steps do, and only then stores the output. No entry but the template's own changes, and at most two effects happen |
| Listen.HasTarget | pkg/listen.go:127 | A template writes exactly when its target is present and non-empty (a definition with no contract of its own) |
| Listen.Plan | pkg/listen.go:127-136 | A changed output's full apply: the write of the output to the target, when there is one, first, and the action last (a definition; `Executed` states what is performed of it) |
| Listen.Updated | pkg/listen.go:61-69 | Only the batch's own entries change; a batch without error rendered every template; the error is never a subscription error |
| Listen.UpdatedSplit | pkg/listen.go:61-67 | A batch is its first `k` templates then the rest: a failure in the first part is the whole result (nothing later runs); otherwise the rest runs on the cache the first part left, after its effects |
| Listen.UpdatedCachesEveryOutput | pkg/listen.go:61-69 | After a batch without error (distinct names), every template's entry holds exactly its rendered output |
| Listen.QuietWhenCached | pkg/listen.go:125 | When every output equals its entry, a batch performs nothing and changes nothing |
| Listen.SecondUpdateIsQuiet | pkg/listen.go:98 | A second batch rendering the same outputs after a successful one writes nothing and runs no action |
| Listen.SecondExecutionIsQuiet | pkg/listen.go:125-141 | Executing a template again with the output just applied does nothing |
| Listen.FailedApplyIsRetried | pkg/listen.go:127-140 | When a changed output fails to write or its action fails, the entry is not updated, so the same output is applied again next time |
| Listen.FirstExecution | pkg/listen.go:121-125 | On a template's first execution, nothing happens exactly when its output is `""`, which reads like the missing entry |
| Listen.Served | pkg/listen.go:95-106 | The receive loop changes only the templates' entries and never exits the process |
| Listen.ServedStopsOnErrorReply | pkg/listen.go:102-104 | The loop is still waiting only if no reply was an error; a subscription error it returns is the reason of the first error reply |
| Listen.ServedSplit | pkg/listen.go:95-106 | Replies split at `k`: if the first part ended the loop, that is the whole run; otherwise the rest is served on the cache it left, after its effects |
| Listen.ServedBatch | pkg/listen.go:97-101 | A message at position `i` runs exactly one `update` of its batch; a failing `update` ends the loop with that batch's cache, effects and error; otherwise the loop goes on with the next reply on the cache the batch left |
| Listen.Listened | pkg/listen.go:75-107 | The cache holds only template names. A failure of the initial pass returns it at once, before any reply is handled. Otherwise the initial pass's effects come first |
| Listen.RepeatedMessageIsQuiet | pkg/listen.go:84-101 | After a successful initial pass, a message whose batch renders the same outputs has no effect and the loop keeps waiting |
| Listen.UpdatedSingle | pkg/listen.go:61-67 | A batch of one template is one execution |
| Listen.TestRender | pkg/listen_test.go:69-70 | The test's template: with a working connection and `foo` stored, it renders `foo`'s value, a newline, then `bar`'s value or "World"; if any connection step fails or `foo` is missing, it fails |
| Listen.DuplicateNamesShareEntry | pkg/listen.go:112-139 | Two templates with the same source path share one entry: after the first applies an output, the second sees it as unchanged and its own target is never written |
| Listen.TwoRendersTwoApplies | pkg/listen.go:84-104 | An initial output and a different one after a message are both written, each followed by the action; the cache ends with the second, and the next error reply ends the run with that error |
| Listen.ListenTestScenario | pkg/listen_test.go:69-157 | With `foo` = "Hello!!" then "Hello" and one publish, the target is written with "Hello!!\nWorld" then "Hello\nWorld", the action runs after each write, and when the store goes away `Listen` returns the subscription's error |
| Listen.ExecuteTemplate | pkg/listen.go:111-144 | Leaves the shared map, the effect log and the returned error exactly as `Executed` says |
| Listen.Update | pkg/listen.go:49-70 | Leaves the map, the log and the error exactly as `Updated` says (loop invariant over the executed prefix) |
| Listen.Serve | pkg/listen.go:95-106 | Leaves the map, the log and the outcome exactly as `Served` says (loop invariant over the handled replies) |
| Listen.Listen | pkg/listen.go:75-107 | Creates a fresh map and leaves it, the log and the outcome exactly as `Listened` says |
| Poller.Primed1 | pkg/poller.go:30-41 | A render error is fatal and has no effect. A changed output is written, and a failed write is fatal. No action runs. Unless fatal, the entry becomes the output whether or not it was written |
| Poller.Primed | pkg/poller.go:29-42 | Only the templates' entries change; only writes happen; a completed pass rendered every template; its error is never a subscription error (stopping at the first fatal error is `Poller.PrimedSplit`) |
| Poller.PrimedSplit | pkg/poller.go:29-42 | The initial pass is its first `k` templates then the rest: a fatal error in the first part is the whole result (nothing later is rendered or written); otherwise the rest runs on the cache the first part left, after its effects |
| Poller.PrimedCachesEveryOutput | pkg/poller.go:29-42 | After a completed initial pass (distinct names), every entry holds its template's output |
| Poller.Reloaded1 | pkg/poller.go:58-78 | A template is applied exactly when it renders, is written if changed, and its action succeeds, and only then is its entry updated. A render failure has no effect. A changed output is written. The action runs exactly when the output is unchanged or the write succeeded |
| Poller.Plan | pkg/poller.go:65-75 | What a reload attempts for a rendered output: the write when the output changed, then the action (a definition; `Reloaded1` states what is performed of it) |
| Poller.Applies | pkg/poller.go:60-77 | A reload applies a template exactly when it renders, its write succeeds or is not needed, and its action succeeds (a definition with no contract of its own) |
| Poller.Reloaded | pkg/poller.go:58-78 | A batch changes only the templates' own entries and performs at most two effects per template; what each template does is `ReloadedEffects` and `ReloadedVisitsEveryTemplate` |
| Poller.ReloadedVisitsEveryTemplate | pkg/poller.go:58-78 | With distinct names, after a batch each entry holds the template's output if it was applied, and its old value otherwise |
| Poller.ReloadedEffects | pkg/poller.go:58-78 | With distinct names, a batch's effects are each template's own effects against the starting cache, in order, so a failed render, write or action (the `continue`s at 62, 68 and 74) takes nothing away from the templates after it |
| Poller.ReloadedWhenCached | pkg/poller.go:65-75 | When every output equals its entry, a batch writes nothing but runs every action, in order |
| Poller.Polled | pkg/poller.go:46-82 | The receive loop changes only the templates' entries, ends only with a subscription error, and never exits the process |
| Poller.PolledStopsAtFirstErrorReply | pkg/poller.go:79-80 | The loop keeps waiting exactly when no reply is an error; when it stops, it returns the first error reply's reason |
| Poller.PollRun | pkg/poller.go:16-83 | A failed dial or subscription returns before anything is rendered. Otherwise the initial pass runs from an empty map, and a fatal error there exits the process. The cache holds only template names |
| Poller.ReloadAfterPrimeRunsOnlyActions | pkg/poller.go:29-78 | After a completed initial pass, a message rendering the same outputs writes nothing and runs every action |
| Poller.Prime | pkg/poller.go:29-42 | Leaves the map, the log and the fatal error exactly as `Primed` says (loop invariant over the processed prefix) |
| Poller.ReloadTemplate | pkg/poller.go:59-77 | Leaves the map and the log exactly as `Reloaded1` says |
| Poller.Reload | pkg/poller.go:58-78 | Leaves the map and the log exactly as `Reloaded` says (loop invariant over the processed prefix) |
| Poller.Receive | pkg/poller.go:46-82 | Leaves the map, the log and the outcome exactly as `Polled` says (loop invariant over the handled replies) |
| Poller.Poll | pkg/poller.go:16-83 | Leaves the map, the log and the outcome exactly as `PollRun` says |

## Left out

- Redis I/O: dialling, `Subscribe` and `Receive` are not modelled. The replies a
  subscription delivers are a finite sequence of `Engine.Event`s. A run that uses them all
  up without an error ends in `Waiting`, where the source would block on the next `Receive`.
  A message's payload is ignored, as in the source.
- In `listen.go`, a failed dial or subscription in the `subscribe` goroutine reaches the
  loop over the same error channel as a failed `Receive`. It is modelled as a
  `ReceiveError` reply. In `poller.go` it happens before the initial pass and is
  `Poller.PollRun`'s `connect` parameter.
- Concurrency: the goroutine, the two channels and the mutex around the map are not
  modelled. `Listen` runs one `update` at a time, so the locked map is a plain class
  field. The receive loops are the separate methods `Listen.Serve` and `Poller.Receive`.
- Template rendering (`text/template` parsing and execution) is an input of each attempt.
  `Listen.TestRender` builds only the render of the test's template from `Config.Key` and
  `Config.KeyOrDefault`.
- `TemplateFlag.ToTemplate`: reading the source file and compiling the template are not
  modelled. A template is its name, its target and its action.
- File and process details: the write's `0666` mode, and the command's stdout and stderr,
  are not modelled. A write or a command is an `Engine.Effect` whose success the world
  decides.
- The splay delay: the random sleep in `update` and in `Poll` changes only timing. In
  `Poll` the random value is also taken as nanoseconds, not milliseconds.
- Logging: every log line is left out. The errors that `Poll`'s reload loop only logs are
  kept as `Poller.Reloaded1`'s `err`. `log.Fatal` in the initial pass is the `Exited`
  outcome.
- Errors: `errors.WithStack` wrapping and the exact text of Redis, file and process errors
  are left out. An error keeps only its kind and the path, command or reason.
- `Config.Key`, `Config.KeyOrDefault`: the source returns without closing the connection
  whenever `GET` fails. In `key` that includes a missing key (`config.go:118-121`). In
  `keyOrDefault` it is any error other than a missing key (`config.go:98`). Connections
  are not modelled, so these leaks are not captured.
- Strings: Go strings are byte strings and the model's are character sequences. Only the
  slices around the colons are relied on, and `:` is one byte in UTF-8.
- Duplicate template names: nothing stops two templates from having the same source path.
  They then share one cache entry, so after the first one applies an output, the second
  sees it as unchanged and never writes its own target (`Listen.DuplicateNamesShareEntry`).
  The lemmas that say every entry holds its template's output
  (`Listen.UpdatedCachesEveryOutput`, `Poller.PrimedCachesEveryOutput`,
  `Poller.ReloadedVisitsEveryTemplate`) are stated for distinct names (`Distinct`), and so
  are the lemmas about effects that rely on each template reading its own entry:
  `Poller.ReloadedEffects`, `Listen.SecondUpdateIsQuiet`, `Listen.RepeatedMessageIsQuiet`
  and `Poller.ReloadAfterPrimeRunsOnlyActions`. With duplicates, a later template reads the
  entry an earlier one has just written.
- `Listen.HasTarget`: `listen.go` uses a pointer for the target and checks only for nil.
  The model also skips the write for an empty target, as described above. `config.go`'s
  `Template.Target` is a string, and the test passes `TemplateFlags` to a `Config` that
  has no such field, so these files do not build together as given. The model follows
  each file's own logic.
- The command line (`cmd/redis-template/main.go`) and the `flag.Value` plumbing around
  `TemplateFlags` are not part of this model. Neither is the `Channel` field, because
  both engines subscribe to the constant channel name.
