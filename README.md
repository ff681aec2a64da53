# Install mixin and git identity cache, in Dafny

This project models two parts of a code-generator framework.

It proves properties of both models.

- **The install mixin** (`src/mixins/install.ts`). This covers `installDependencies`, `scheduleInstall` and its three
  delegations `npmInstall`, `yarnInstall` and `bowerInstall`.
  - `installDependencies` chooses npm, yarn and bower from its options and runs them in that order.
  - It fails its assertion when none is chosen.
  - It logs a summary of the commands unless `skipMessage` is set.
  - `scheduleInstall` builds the command line: the `install`/`add` verb, the package names, the `dargs` flags and npm's
    `--cache-min 86400`.
  - It then logs a skip notice when installs are skipped. Otherwise it spawns the command line.
  - A failed spawn is handled as follows:
    - with force-install set and both an exit status and a signal, it throws a new error;
    - otherwise it logs remediation advice;
    - after that advice, it rethrows the spawn's error only under force-install.
- **The git identity helpers** (`src/user.ts`).
  - `git.name()` and `git.email()` run `git config --get user.name` / `user.email` when `git` is on the PATH.
  - They keep the trimmed answer in a map keyed by working directory.
  - A non-empty remembered answer is returned without running git again.
  - `clear()` empties both maps.

## Layout

Files:
- `js.dfy` (module `Js`): JavaScript values, truthiness, `||`, and the `Option`/`Outcome` wrappers for `undefined` and
  thrown errors.
- `strings.dfy` (module `Strings`): `split(' ')`, `join` and `trim`, as the JavaScript runtime defines them.
- `install.dfy` (module `Install`):
  - the reference functions `ScheduleSpec`, `RunManagers` and `InstallDependenciesSpec`;
  - their lemmas;
  - class `Installer`, the mixin object. Its methods update the log and the spawn record in place, and each is proved
    equal to its reference function.
- `user.dfy` (module `User`):
  - the reference function `LookupSpec`;
  - class `GitIdentity`, holding both caches and the record of executed commands;
  - lemmas about repeated lookups.

The surroundings are parameters:
- `this.opts`;
- the `dargs` library, as an arbitrary function from records to flags;
- the outcome of each spawn, as an oracle `outcomes(n)` for the n-th spawn;
- for each identity lookup: the working directory, whether `git` is on the PATH, and what git prints.

The code is followed where its doc-comments say otherwise:
- `bower` is off unless truthy (`install.ts:69`), although its doc-comment gives it a default of true.
- npm runs unless its option is exactly `false` (`install.ts:59`).
- An empty `paths` string is split into one empty package name (`install.ts:113`). So yarn switches to `add` and `""` is
  passed on. The doc-comment reads as if the empty string meant "no packages".
- A remembered empty name or e-mail is a cache miss (`user.ts:31`). A directory whose git answer is empty therefore runs
  git on every call.

## Model

| member | source | states |
|---|---|---|
| Js.Truthy | src/mixins/install.ts:64-72 | a value is truthy exactly when it is not one of the falsy values `undefined`, `null`, `false`, `0` and `""` |
| Js.Or | src/mixins/install.ts:147 | JavaScript's logical or is one of its operands: `a` when `a` is truthy, `b` when it is not; it is truthy exactly when one of the operands is |
| Strings.Join | src/mixins/install.ts:86 | joining no parts gives the empty string, and a join starts with its first part |
| Strings.Split | src/mixins/install.ts:113 | `split(' ')` gives one piece more than there are spaces (so `""` gives `[""]`), and no piece contains a space |
| Strings.JoinSplit | src/mixins/install.ts:113 | joining the pieces of a split with single spaces gives back the original string |
| Strings.SplitJoin | src/mixins/install.ts:113 | splitting a space-joined non-empty list of space-free names gives back the list |
| Strings.SplitNoSpace | src/mixins/install.ts:113 | a space-free string splits into itself |
| Strings.SplitAtFirstSpace | src/mixins/install.ts:113 | splitting at the first space yields the part before it, then the pieces of the rest |
| Strings.LeadingSpace | src/user.ts:36 | the length of the white-space run at the start of a string: all of it is white space, and the character after it is not |
| Strings.ContentEnd | src/user.ts:36 | the end of a slice once its trailing white space is cut: everything cut is white space, and the last character kept is not |
| Strings.Trim | src/user.ts:36 | `trim()` is the slice that starts after the leading white space and ends where the trailing white space starts; it neither starts nor ends with white space; it is empty exactly when the input is all white space |
| Install.Labels | src/mixins/install.ts:59-72 | the labels pushed onto `msg.commands` are one `"<manager> install"` per chosen manager, in order |
| Install.LabelsAppend | src/mixins/install.ts:59-72 | pushing one more manager appends exactly its label |
| Install.LabelText | src/mixins/install.ts:60-70 | the three labels pushed at lines 60, 65 and 70 are `npm install`, `yarn install` and `bower install` |
| Install.Enabled | src/mixins/install.ts:59-72 | a truthy option always enables its manager; yarn and bower run exactly when their option is truthy; npm is off only when its option is exactly `false` |
| Install.Selected | src/mixins/install.ts:59-72 | at most three managers are chosen, and none is chosen exactly when none of the three is enabled |
| Install.SelectionRule | src/mixins/install.ts:59-72 | a manager is chosen exactly when enabled: npm unless `false`, yarn and bower when truthy; the choice keeps the order npm, yarn, bower with no repeats |
| Install.GetOptions | src/mixins/install.ts:55-57 | `getOptions` passes an object through and turns every other value (including null) into no options |
| Install.NormalizePaths | src/mixins/install.ts:113 | absent paths give no names; a list is kept as it is; a string gives one name more than it has spaces, and those names joined with spaces give back the string |
| Install.InstallArgs | src/mixins/install.ts:115-125 | the arguments are the verb, the names, the flags and, for npm alone, two more; the verb is `add` exactly for yarn with at least one name, and `install` otherwise |
| Install.InstallArgsLayout | src/mixins/install.ts:115-125 | after the verb come the package names, then the `dargs` flags, then `--cache-min 86400` for npm and nothing for the others |
| Install.ArgsBuilt | src/mixins/install.ts:115-125 | building the arguments step by step (concatenate, overwrite `args[0]`, append the cache suffix) gives the command line described above |
| Install.YarnVerb | src/mixins/install.ts:117-120 | yarn uses `add` exactly when there is at least one package name |
| Install.EmptyPathStringIsOnePackage | src/mixins/install.ts:113 | an empty `paths` string becomes one empty package name, so a yarn install becomes `add ""` |
| Install.PathStringMatchesList | src/mixins/install.ts:113 | splitting a space-separated `paths` string of space-free names gives back those names, so it builds the same command line as the list |
| Install.SkipText | src/mixins/install.ts:129-131 | the skip notice ends with the command line exactly as it would have been spawned |
| Install.AdviceText | src/mixins/install.ts:151-161 | the remediation advice ends with the command line to run by hand |
| Install.SummaryText | src/mixins/install.ts:48-52 | the summary starts with a newline and "I'm all done. Just run " when the template's `skipInstall` is truthy (otherwise "I'm all done. Running "), the commands follow right after, and the text ends with a newline |
| Install.Render | src/mixins/install.ts:129-161 | the skip notice and the remediation advice both end with their command line; the summary holds the commands right after its opening words |
| Install.Assign | src/mixins/install.ts:80-88 | `assign(target, source)` has the keys of both; a key of `source` takes its value from `source`, any other from `target` |
| Install.SummaryOf | src/mixins/install.ts:79-90 | the summary is in the skip-install form exactly when `this.opts.skipInstall` is truthy (the default `false` applies otherwise), and its commands are the labels joined by ` && ` |
| Install.OnSpawnResult | src/mixins/install.ts:136-166 | a spawn failure throws exactly under force-install (either spelling, `ForceInstall`, lines 143 and 163); it throws the new "Installation failed" error, carrying `exitStatus \|\| exitSignal`, exactly when the status and the signal are both truthy, and otherwise rethrows the original error; the remediation advice is logged for every failure except the new-error case |
| Install.ScheduleSpec | src/mixins/install.ts:105-167 | scheduleInstall throws only when installs are not skipped and force-install is set, and never the assertion error of installDependencies |
| Install.ScheduleDecisionTable | src/mixins/install.ts:127-166 | with skip-install (either spelling, `SkipInstall`, line 128), exactly the skip notice, naming the command line `installer + ' ' + args.join(' ')` (`CommandLine`, line 131), is logged and nothing is spawned; otherwise the command line is spawned once; the call throws exactly when the spawn failed under force-install; the log is only appended to, by at most one message |
| Install.ManagerCalls | src/mixins/install.ts:59-72 | the command lines of a sequence of managers are one per manager, each that manager's own, in the same order; a manager's call is `<m>Install(null, getOptions(options.<m>))` (`ManagerStep`, `ManagerCall`, lines 61, 66 and 71) |
| Install.SkipNotices | src/mixins/install.ts:128-134 | the skip notices of a sequence of managers are one per manager, each naming that manager's command line, in the same order |
| Install.RunManagers | src/mixins/install.ts:59-72 | a run of installs only appends to the log and the spawn record, and never raises the no-manager assertion |
| Install.InstallDependenciesSpec | src/mixins/install.ts:44-91 | installDependencies only appends to the log and the spawn record; when its assertion fails, it has logged and spawned nothing |
| Install.RunManagersAppend | src/mixins/install.ts:59-72 | running a sequence of installs is running its first part and then, unless that part threw, the rest |
| Install.SkipInstallSpawnsNothing | src/mixins/install.ts:128-134 | with skip-install, every chosen manager logs its skip notice in order, nothing is spawned, and the run completes |
| Install.CallsFollowManagers | src/mixins/install.ts:59-72 | without skip-install, the chosen managers' command lines are spawned in order, one per manager, up to and including the first that throws; the managers before it complete and the run stops at it; if none throws, all are spawned |
| Install.AssertionIffNothingSelected | src/mixins/install.ts:74-77 | installDependencies fails its assertion exactly when npm is `false` and yarn and bower are falsy, where missing options read as `{}` (`OrNoOptions`, line 45) |
| Install.CompletionMessageLogged | src/mixins/install.ts:79-90 | after a completed run, the summary is logged exactly when `skipMessage` is falsy; it names the chosen labels joined by ` && `; nothing more is spawned |
| Install.KebabSkipStillSaysRunning | src/mixins/install.ts:80-89 | with only `skip-install` set, nothing is spawned, yet the summary takes the "Running … for you" form, because the template reads only `skipInstall` |
| Install.SkipInstallNeverSpawns | src/mixins/install.ts:128-134 | with skip-install set, installDependencies spawns nothing |
| Install.DefaultsRunNpmOnly | src/mixins/install.ts:59-72 | without options only npm runs, with `install`, the flags of `{}` and `--cache-min 86400` |
| Install.Installer.Log | src/mixins/install.ts:129 | `this.log` appends one message and spawns nothing |
| Install.Installer.Spawn | src/mixins/install.ts:137 | `this.spawn` records exactly one call and resolves as the oracle says for that call |
| Install.Installer.BuildArgs | src/mixins/install.ts:111-125 | the in-place construction of `args` yields the command line of InstallArgs |
| Install.Installer.ScheduleInstall | src/mixins/install.ts:105-167 | the new log, the new spawn record and the outcome are those of the reference `ScheduleSpec` |
| Install.Installer.NpmInstall | src/mixins/install.ts:195-201 | behaves as `scheduleInstall('npm', …)` |
| Install.Installer.YarnInstall | src/mixins/install.ts:212-218 | behaves as `scheduleInstall('yarn', …)` |
| Install.Installer.BowerInstall | src/mixins/install.ts:178-184 | behaves as `scheduleInstall('bower', …)` |
| Install.Installer.InstallIfEnabled | src/mixins/install.ts:59-62 | one guarded block: when the manager is enabled, its label is pushed and its install runs, continuing the reference run by that manager; otherwise nothing changes |
| Install.Installer.RunEnabled | src/mixins/install.ts:59-72 | the three guarded installs leave the state and outcome of the reference `RunManagers` over the chosen managers; when none threw, `msg.commands` holds exactly their labels |
| Install.Installer.InstallDependencies | src/mixins/install.ts:44-91 | the new log, the new spawn record and the outcome are those of the reference `InstallDependenciesSpec` |
| User.Cached | src/user.ts:29 | `cache.get(cwd)` is present exactly when the directory has an entry, and then it is that entry |
| User.Hit | src/user.ts:29-31 | the remembered answer is used exactly when there is one and it is truthy, so a remembered empty string is a miss |
| User.LookupSpec | src/user.ts:28-41 | git runs exactly on a miss with git on the PATH, and then its trimmed output is returned and remembered; a hit returns the remembered value without running git; without git the remembered (absent or empty) value is returned; other directories' entries are untouched; the returned value is what the cache then holds |
| User.GitIdentity.Name | src/user.ts:28-41 | `git.name()` returns, remembers and executes as LookupSpec says on the name cache; the e-mail cache is unchanged |
| User.GitIdentity.Email | src/user.ts:48-61 | `git.email()` returns, remembers and executes as LookupSpec says on the e-mail cache; the name cache is unchanged |
| User.GitIdentity.Exec | src/user.ts:36 | `shell.exec` records its command once and yields what the command prints |
| User.GitIdentity.Clear | src/user.ts:17-20 | `clear()` empties both caches and runs nothing |
| User.GitIdentity.constructor | src/user.ts:4-5 | both caches start empty |
| User.HitStaysHit | src/user.ts:29-33 | once a directory has a non-empty answer, further lookups run nothing and change nothing |
| User.AtMostOneExec | src/__tests__/user.test.ts:54-59 | while git prints non-empty answers, any number of lookups in one directory runs git at most once (once exactly when it starts with a miss and git is available) |
| User.EmptyAnswerAlwaysReruns | src/user.ts:31 | while git prints only white space, every lookup runs git again, because an empty remembered answer is a miss |
| User.CachePerDirectory | src/__tests__/user.test.ts:61-67 | after `clear()`, lookups in two different directories both run git, and each directory keeps its own answer |
| User.NameIsWhatGitPrints | src/__tests__/user.test.ts:50-52 | the value returned is what git printed, without its trailing newline |

## Left out

- `github.username` (`src/user.ts:69-71`): it is a network call into the `github-username` package, which is not part of this model.
- Several parts of the framework are not part of this model:
  - the spawn helper (`src/mixins/spawn.ts`) is modelled only as the outcome oracle;
  - `src/base.ts`, `src/template.ts` and `src/types.ts`.
- `spawnOptions`: it is only passed through to the spawn helper, so the model omits it.
- Libraries modelled as parameters:
  - `dargs` is an arbitrary function from an options record to flags. Its own flag formatting is not modelled.
  - `shell.which('git')` is a boolean parameter.
  - What `shell.exec` prints is a string parameter.
  - `process.cwd()` is a parameter.
- `chalk` colouring: it is left out. The logged messages carry their plain text.
- Install.Installer.Log: log entries are kept as structured messages: skip notice, remediation advice, and summary. `Install.Render` gives the exact text the logger receives. The claims about the log are stated on the structured entries.
- Install.Installer: the log and the spawn record are two separate sequences, so the model does not capture the relative order of log messages and spawns. Within each sequence the order is kept.
- Install.Assign: `assign` comes from the `@loopx/utils` package, which is not part of this model. It is modelled as `Object.assign` on plain records: later sources overwrite earlier keys. Only `skipInstall` and `commands` of the merged record reach the template.
- JavaScript values:
  - numbers are integers, with no NaN and no fractions;
  - arrays and functions are not modelled as option values;
  - `paths` is a string, a list or absent.
- Asynchrony: `await` is modelled as sequential execution. No two installs interleave.
- The `Installation of … failed with code …` error is kept as its installer and its code, rather than as the formatted string.
