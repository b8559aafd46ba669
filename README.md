# sst CLI core, in Dafny

This project models the decision-making of the `sst` command-line program
(`cmd/sst/main.go`). It covers seven pieces:

- **The command tree.** A static tree of commands, each with positional
  arguments, flags, examples, children and an optional handler. `Command.init`
  normalises the tree at start-up.
- **Dispatch.** `run` registers the flags of the whole tree into one flat
  map. It then walks the tree over the non-flag arguments: it descends while a
  child matches, stops at a mismatch, and takes the rest of the arguments as
  positionals when it reaches a leaf. Finally it either invokes the resolved
  command's handler or renders help.
- **The accessors.** `Cli.Positional`, `Cli.String` and `Cli.Bool`, and the
  usage text of an argument list.
- **The stage resolver.** `getStage` and `guessStage` choose the stage in this
  order: the `--stage` flag, the project's personal-stage marker, a guess from
  the OS username (with a denylist), and an interactive prompt. A guessed or
  prompted stage is written back to the marker.
- **The `secret set` and `secret remove` handlers.** Each makes one edit to the
  stage's secret map between a read from the secret backend and a write to it.
- **The `state edit` handler.** It runs a lock / pull / edit / push sequence,
  and its deferred unlock is called on every way out once the lock is taken.
- **`main`'s error policy.** It decides what is sent to telemetry, what is
  printed, and the exit code.

Modules:

- `Errors` (errors.dfy): the error kinds and `main`'s report.
- `Commands` (commands.dfy): the tree datatypes, `Command.init` and usage text.
- `Tree` (tree.dfy): the CLI's own command tree, `Root`, as a constant.
- `Flags` (flags.dfy): flag registration, as a function and as a method on a
  registry class, and the `Cli` record.
- `Dispatcher` (dispatch.dfy):
  - the resolution walk, as a function and as the source's loop;
  - an independent characterisation of a resolution;
  - the handler-or-help decision;
  - its invariance under `Command.init`.
- `RootDispatch` (root_dispatch.dfy): facts about dispatch over `Root` itself.
- `Stage` (stage.dfy): the stage resolver; the marker file is a field of a
  class.
- `Secrets` (secrets.dfy): the secret edits and the two handlers over a
  backend class.
- `StateEdit` (state_edit.dfy): the lock bracket over a session class that logs
  calls.

Outside collaborators are inputs of the model. These are the flag parser's
result, the first-run setup, `initProject`, the username lookup, the prompt,
the secret backend, the stack's lock and state calls, and the editor process.
Each success or failure is a parameter.

## Model

| member | source | states |
|---|---|---|
| Errors.Truncate | cmd/sst/main.go:50-53 | the telemetry message is at most 255 characters, is a prefix of the error message, equals it exactly when it fits, and has exactly 255 characters otherwise |
| Errors.Displayed | cmd/sst/main.go:58-65 | a readable error prints its own message only when that is non-empty; any other error prints the fixed generic text; nothing empty is ever printed |
| Errors.MainReport | cmd/sst/main.go:47-68 | exit code 0 with a success event exactly when `run` returned no error; otherwise exit code 1 with the truncated message as the error event |
| Errors.HelpIsSilent | cmd/sst/main.go:58-66 | after help (ErrHelp, a readable error with an empty message) nothing more is printed, the event carries "", and the process exits 1 |
| Errors.UnexpectedDetailHidden | cmd/sst/main.go:63-65 | the detail of an unexpected error never reaches the terminal: two such errors print the same generic text |
| Errors.ReportBounds | cmd/sst/main.go:50-62 | for any error, what is printed is non-empty and the telemetry message is a prefix of at most 255 characters |
| Commands.Init | cmd/sst/main.go:1224-1240 | `Command.init` keeps a command's name, hidden flag and handler; its arguments, flags and examples become non-nil lists with the same elements, and its children a non-nil list of the same length |
| Commands.InitNormalises | cmd/sst/main.go:1224-1240 | after `Command.init` no slice anywhere in the tree is nil |
| Commands.InitFixesNormalised | cmd/sst/main.go:1224-1239 | a tree without nil slices is left exactly as it is |
| Commands.InitIdempotent | cmd/sst/main.go:1224-1240 | running `Command.init` twice is the same as running it once |
| Commands.RequiredCount | cmd/sst/main.go:143-149 | the required-argument count is at most the number of arguments; it equals that number exactly when all are required, and is 0 exactly when none is |
| Commands.Token | cmd/sst/main.go:1263-1267 | a required argument renders as `<name>`, an optional one as `[name]` |
| Commands.ArgListString | cmd/sst/main.go:1260-1270 | usage text is empty exactly when the list is empty |
| Commands.ArgListRoundTrip | cmd/sst/main.go:1260-1270 | the space-joined usage text determines the argument list: names, required-ness and order read back exactly, when no name contains a space |
| Flags.KindOf | cmd/sst/main.go:1155-1160 | a "string" tag registers a string flag, a "bool" tag a bool flag, and any other tag nothing |
| Tree.RootShape | cmd/sst/main.go:157-1151 | `Root` is named "sst", is not hidden, has no handler, declares the flags stage (string), verbose (bool) and help (bool), and has the 17 commands init … state in the declared order |
| Tree.RootHidden | cmd/sst/main.go:157-1151 | the hidden commands of `Root` are exactly the last five: import-unstable, server, introspect, refresh and state |
| Flags.AddFlag | cmd/sst/main.go:1154-1161 | a string or bool flag enters the map under its name with its own kind, overwriting an earlier entry; a flag of any other type adds nothing; every other entry is unchanged |
| Flags.RegisterOwn | cmd/sst/main.go:1154-1162 | registering a command's own flags never removes an entry |
| Flags.Registered | cmd/sst/main.go:1153-1166 | registering a subtree never removes an entry |
| Flags.RegisterOwnKeys | cmd/sst/main.go:1154-1162 | registering a command's own flags adds exactly the names of its string and bool flags and leaves every other entry alone |
| Flags.RegisteredKeys | cmd/sst/main.go:1153-1166 | registering a subtree adds exactly the names of the string and bool flags declared anywhere in it, whatever their depth, and leaves every other entry alone |
| Flags.RegisterOwnKind | cmd/sst/main.go:1154-1161 | when every string or bool declaration of a name among a command's flags has one kind, and the map already holds that kind for it if anything, the name is registered with that kind |
| Flags.RegisteredKindFrom | cmd/sst/main.go:1153-1166 | the same for a whole subtree: a name declared only with one kind anywhere in it stays registered with that kind |
| Flags.RegisterChildrenKind | cmd/sst/main.go:1163-1165 | the same for the subtrees of a command's first children, in order |
| Flags.RegisteredKind | cmd/sst/main.go:1153-1166 | a name declared somewhere in the tree as a string or bool flag, and only ever with one kind, is registered with that kind, so `Cli.String` or `Cli.Bool` can read it |
| Flags.RegisteredInit | cmd/sst/main.go:1168-1170 | `Command.init` does not change the registered flag map |
| Flags.FlagRegistry.Register | cmd/sst/main.go:1153-1166 | the recursive registration method leaves the shared map equal to the registration function applied to the map it started from |
| Flags.FlagValues | cmd/sst/main.go:1155-1160 | after parsing, every registered flag has a value of its kind: the parsed one if given, otherwise "" or false |
| Flags.Cli.Positional | cmd/sst/main.go:1206-1211 | the index-th positional, or "" past the end |
| Flags.Cli.String | cmd/sst/main.go:1184-1189 | the string flag's value, or "" for an unknown name |
| Flags.Cli.Bool | cmd/sst/main.go:1191-1196 | the bool flag's value, or false for an unknown name |
| Flags.UnsetFlagsReadDefault | cmd/sst/main.go:1184-1196 | a flag the user did not pass reads as "" or false |
| Dispatcher.FindChildFirst | cmd/sst/main.go:99-104 | the inner loop finds the first child with the argument's name, and finds none exactly when no child has it |
| Dispatcher.SearchChildren | cmd/sst/main.go:99-104 | the inner loop returns the first child with the argument's name, as the search function does |
| Dispatcher.Walk | cmd/sst/main.go:91-109 | the walk descends into at most one command per argument |
| Dispatcher.Resolve | cmd/sst/main.go:88-109 | the path starts at the root and holds at most one more command than there are arguments |
| Dispatcher.ResolveCharacterised | cmd/sst/main.go:87-109 | the walk's result is a resolution, and the only one: path from the root through first matching children in argument order, stopping only at a leaf, at a mismatch or at the end; positionals are the rest at a leaf and empty otherwise |
| Dispatcher.ResolvePath | cmd/sst/main.go:87-109 | the dispatch loop computes exactly the resolution of the walk |
| Dispatcher.CountRequired | cmd/sst/main.go:143-149 | the counting loop returns the number of required arguments |
| Dispatcher.Outcome.Returned | cmd/sst/main.go:118-154 | rendering help returns ErrHelp, a failed setup step returns its own error, and an invoked handler's result is what `run` returns |
| Dispatcher.OutcomeReport | cmd/sst/main.go:47-68 | what `main` makes of each outcome: help exits 1 with an empty telemetry message and nothing printed, a setup failure is reported as its own error, a handler's result as the handler returned it |
| Dispatcher.MakeCli | cmd/sst/main.go:110-116 | the invocation record holds a value for every registered flag, and the resolved path and positionals |
| Dispatcher.Decide | cmd/sst/main.go:118-154 | a parse error yields help for the path; a setup failure is reported exactly when parsing succeeded and setup failed; help is always for the resolved path; an invoked handler is the active command's, gets the record as built, and runs only with --help off and enough positionals |
| Dispatcher.Dispatch | cmd/sst/main.go:82-154 | help is rendered for the resolved path; an invoked handler gets the resolved path and positionals and a value for every registered flag; a setup failure is reported exactly when parsing succeeded and setup failed |
| Dispatcher.Run | cmd/sst/main.go:82-154 | registration, the walk, the counter and the decision together produce the dispatch outcome |
| Dispatcher.HelpDecision | cmd/sst/main.go:118-154 | the handler runs exactly when parsing and setup succeeded, --help is off, the active command has a handler and enough positionals were given; a parse error always yields help; every help outcome is for the resolved path |
| Dispatcher.InvokedHasRequiredPositionals | cmd/sst/main.go:141-153 | an invoked handler's `Positional(k)` is a real argument for each of its required arguments |
| Dispatcher.DispatchInit | cmd/sst/main.go:1168-1170 | dispatch over the normalised tree gives the same kind of outcome, handler, positionals and flag values, with the normalised path |
| RootDispatch.RootRegistered | cmd/sst/main.go:157-1151 | the CLI's flat flag map is stage (string), verbose and help (bool), and parent (string) |
| RootDispatch.RootFlagValues | cmd/sst/main.go:1153-1161 | over `Root`, when only --stage=prod is given, help reads false and stage reads "prod" |
| RootDispatch.SecretSetRecord | cmd/sst/main.go:87-116 | the record built for `sst secret set Foo bar --stage=prod` has path sst/secret/set, positionals Foo and bar, help false and stage "prod" |
| RootDispatch.SecretSetExample | cmd/sst/main.go:87-154 | `sst secret set Foo bar --stage=prod` invokes the secret-set handler with path sst/secret/set, positionals Foo and bar, and stage "prod" |
| RootDispatch.UnknownCommandExample | cmd/sst/main.go:87-154 | `sst bogus` renders help for the root |
| RootDispatch.SecretSetAfterInit | cmd/sst/main.go:87-154 | the `secret set` example holds over the tree after `init`, the one the program dispatches over, with the normalised commands on the path |
| RootDispatch.UnknownCommandAfterInit | cmd/sst/main.go:87-154 | `sst bogus` renders help for the normalised root |
| Stage.GuessStage | cmd/sst/main.go:1480-1492 | a guess is "" when the user lookup fails or the lowercased name is denylisted; otherwise it is the lowercased name, and never a denylisted one |
| Stage.GuessStable | cmd/sst/main.go:1480-1492 | a non-empty guess guesses itself |
| Stage.DenylistedNamesNeverGuessed | cmd/sst/main.go:1486-1488 | a denylisted name in any capitalisation gives no guess |
| Stage.ToLower | cmd/sst/main.go:1485 | lowercasing keeps the length and lowercases each character on its own |
| Stage.FirstAccepted | cmd/sst/main.go:1458-1468 | the prompt loop stops at the first read that succeeded with a non-empty line, after rejecting every earlier one, and counts the reads made |
| Stage.ResolveStage | cmd/sst/main.go:1451-1478 | `getStage` never makes more prompt attempts than the reads it is given |
| Stage.Precedence | cmd/sst/main.go:1451-1478 | a non-empty flag is returned and the marker is untouched; else a non-empty marker is returned without writing; else the guess or the prompted value is written and returned; only the last step prompts |
| Stage.ResolvedNonEmpty | cmd/sst/main.go:1451-1478 | a resolved stage is never empty |
| Stage.PromptedStage | cmd/sst/main.go:1458-1472 | the prompted stage is the first accepted line, written to the marker |
| Stage.Idempotent | cmd/sst/main.go:1451-1478 | after a call without a flag resolves a stage, a second such call returns the same stage, does not prompt and does not write |
| Stage.PersonalStage.GetStage | cmd/sst/main.go:1451-1478 | the method with the prompt loop and the marker write computes the resolver's result, marker and number of reads |
| Secrets.SetSecret | cmd/sst/main.go:593 | the key maps to the new value and every other entry is unchanged |
| Secrets.RemoveSecret | cmd/sst/main.go:660-664 | an absent key fails; a present key is deleted and every other entry is unchanged |
| Secrets.RemoveAfterSet | cmd/sst/main.go:660-664 | removing a key just set gives the original map without that key |
| Secrets.SetAfterRemove | cmd/sst/main.go:660-664 | setting a removed key back to its old value restores the map |
| Secrets.RemoveTwiceFails | cmd/sst/main.go:660-662 | removing a key twice fails the second time |
| Secrets.SecretBackend.Get | cmd/sst/main.go:589-592 | `GetSecrets` returns the stored map when it succeeds and nothing otherwise |
| Secrets.SecretBackend.Put | cmd/sst/main.go:594-597 | `PutSecrets` counts one write and replaces the stored map exactly when it succeeds |
| Secrets.SecretBackend.SetHandler | cmd/sst/main.go:580-600 | the set handler returns the set-up error, "Could not get secrets" or "Could not set secret" in that order; only a full success stores the edited map; it writes once whenever the read succeeded |
| Secrets.SecretBackend.RemoveHandler | cmd/sst/main.go:646-671 | the remove handler fails with "does not exist" on an absent key without writing; otherwise it behaves like set, with the key deleted |
| StateEdit.EditorFor | cmd/sst/main.go:1131-1134 | the editor is EDITOR, or vim when that is empty; never empty |
| StateEdit.UnlockExactlyOnce | cmd/sst/main.go:1121-1145 | once the lock is taken the run starts with Lock, ends with Unlock and unlocks exactly once on every path; without the lock nothing is pulled or unlocked |
| StateEdit.LockFailure | cmd/sst/main.go:1121-1124 | a refused lock returns "Could not lock state" and makes no other call |
| StateEdit.PushOnlyAfterEditor | cmd/sst/main.go:1135-1145 | the state is pushed exactly when the editor started and exited cleanly on a pulled file, and that is the full call sequence |
| StateEdit.EditorNeverEmpty | cmd/sst/main.go:1131-1136 | the editor is started with a non-empty name, on the pulled file |
| StateEdit.SuccessIffAllSucceed | cmd/sst/main.go:1114-1146 | the handler returns no error exactly when every step succeeded |
| StateEdit.EditTrace | cmd/sst/main.go:1114-1146 | a run makes no call exactly when project set-up failed, otherwise starts with Lock, and makes at most seven calls |
| StateEdit.EditResult | cmd/sst/main.go:1114-1146 | a set-up error is returned as it is, a refused lock returns "Could not lock state", and success needs the lock and a pulled file |
| StateEdit.Session.TakeLock | cmd/sst/main.go:1121-1125 | `Stack.Lock` is logged and holds the lock exactly when it succeeds |
| StateEdit.Session.ReleaseLock | cmd/sst/main.go:1125 | the deferred `Stack.Unlock` is logged and leaves the lock released |
| StateEdit.Session.EditLocked | cmd/sst/main.go:1126-1145 | the locked part makes the pull, editor and push calls and returns their error |
| StateEdit.Session.EditState | cmd/sst/main.go:1114-1146 | the handler's calls and result are those of the specification, and the lock is released once taken |

## Left out

- Flag parsing by pflag is not modelled. Its result is an input: the leftover arguments, a parse-error bit and the parsed values. The parser's panic on a flag registered twice is not modelled either.
- Flags.Cli.String and Flags.Cli.Bool require the flag to have the kind they read. The source's type assertion panics otherwise. `Dispatcher.Dispatchable` states the same for "help" and "verbose".
- The first-run toolchain installs (Pulumi, Bun) and their spinner are one optional setup error.
- `initProject`, `project.*`, the secret provider, `p.Stack.*` and the dev server are abstract collaborators. Each call succeeds or fails by a parameter. `p.Cleanup` is not modelled.
- `TransformError` and `util.ReadableError` are not part of this model. A readable error's `Error()` is taken to be its message.
- The SIGINT goroutine and context cancellation are left out because they are concurrency.
- Telemetry transport, logging configuration, log-file copying and `godotenv` are left out because they are I/O.
- `PrintHelp`'s rendering is left out. Only its ErrHelp result is kept.
- The other handlers are only named by their `Handler` tag. These include shell, dev, deploy, introspect and the rest.
- Commands.Init is modelled on values. The source overwrites nil fields of shared `*Command` nodes in place, and aliasing between nodes is not modelled.
- Stage.ToLower lowercases ASCII letters only. Go's `strings.ToLower` also folds other Unicode letters.
- Errors.Truncate counts characters. Go's `len` and slicing count bytes, so a multi-byte character can be split at byte 255 in the source.
- Stage.PersonalStage.GetStage reads from a finite sequence of prompt attempts and reports `NoStageEntered` when none is accepted. The source keeps prompting forever on a closed or failing standard input.
- A successful read at the prompt may hold any text in the model. `fmt.Scanln` reads one whitespace-separated token and fails on a line with more than one, so in the source the entered stage never contains a space.
- Stage.PersonalStage.GetStage returns `WriteFailed` in place of the marker write's own error value.
- The pairwise distinctness of sibling names in `Root` is not proved. Dispatch takes the first matching child either way.
- The editor subprocess itself, `shell`'s subprocess and its environment encoding are left out.
