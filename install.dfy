/** The install mixin: builds package-manager command lines (npm, yarn, bower),
    runs them through a spawn oracle, applies the skip and force-install
    policies, and reports what was run.

    The pure functions below are the reference behaviour; class `Installer`
    is the mixin itself, whose methods are proved to behave as those functions
    say. */
module Install {
  import opened Js
  import opened Strings

  // ---------------------------------------------------------------------------
  // Managers and the options of installDependencies

  datatype Manager = Npm | Yarn | Bower

  /** The executable and `installer` argument of a manager. */
  function Executable(m: Manager): string {
    match m
    case Npm => "npm"
    case Yarn => "yarn"
    case Bower => "bower"
  }

  /** Position of a manager in the fixed run order npm, yarn, bower. */
  function Rank(m: Manager): nat {
    match m
    case Npm => 0
    case Yarn => 1
    case Bower => 2
  }

  /** The label pushed onto `msg.commands` when a manager is chosen. */
  function Label(m: Manager): string {
    Executable(m) + " install"
  }

  function Labels(ms: seq<Manager>): (ls: seq<string>)
    ensures |ls| == |ms|
    ensures forall i :: 0 <= i < |ms| ==> ls[i] == Label(ms[i])
  {
    if ms == [] then [] else [Label(ms[0])] + Labels(ms[1..])
  }

  lemma LabelText()
    ensures Label(Npm) == "npm install" && Label(Yarn) == "yarn install" && Label(Bower) == "bower install"
  {
  }

  lemma {:induction false} LabelsAppend(ms: seq<Manager>, m: Manager)
    ensures Labels(ms + [m]) == Labels(ms) + [Label(m)]
    decreases |ms|
  {
    if ms == [] {
      assert [m][1..] == [];
    } else {
      assert (ms + [m])[1..] == ms[1..] + [m];
      LabelsAppend(ms[1..], m);
    }
  }

  /** The `InstallOptions` record; an absent property is `Undefined`. */
  datatype InstallOptions = InstallOptions(npm: Value, yarn: Value, bower: Value, skipMessage: Value)

  /** `options ?? {}` */
  function OrNoOptions(options: Option<InstallOptions>): InstallOptions {
    options.GetOr(InstallOptions(Undefined, Undefined, Undefined, Undefined))
  }

  /** The option of `o` that governs manager `m`. */
  function ManagerValue(o: InstallOptions, m: Manager): Value {
    match m
    case Npm => o.npm
    case Yarn => o.yarn
    case Bower => o.bower
  }

  /** Whether installDependencies runs manager `m`: npm unless its option is
      exactly `false`, yarn and bower only when their option is truthy. */
  predicate Enabled(o: InstallOptions, m: Manager)
    ensures Truthy(ManagerValue(o, m)) ==> Enabled(o, m)
    ensures m != Npm ==> (Enabled(o, m) <==> Truthy(ManagerValue(o, m)))
    ensures !Enabled(o, m) && m == Npm ==> ManagerValue(o, m) == Bool(false)
  {
    match m
    case Npm => o.npm != Bool(false)
    case Yarn => Truthy(o.yarn)
    case Bower => Truthy(o.bower)
  }

  /** The managers installDependencies runs, in the order it runs them. */
  function Selected(o: InstallOptions): (ms: seq<Manager>)
    ensures |ms| <= 3
    ensures ms == [] <==> !Enabled(o, Npm) && !Enabled(o, Yarn) && !Enabled(o, Bower)
  {
    (if Enabled(o, Npm) then [Npm] else [])
    + (if Enabled(o, Yarn) then [Yarn] else [])
    + (if Enabled(o, Bower) then [Bower] else [])
  }

  /** The chosen managers are exactly the enabled ones, each once, in the
      order npm, yarn, bower: a subsequence of `[Npm, Yarn, Bower]`. */
  lemma SelectionRule(o: InstallOptions)
    ensures forall m :: m in Selected(o) <==> Enabled(o, m)
    ensures forall i, j :: 0 <= i < j < |Selected(o)| ==> Rank(Selected(o)[i]) < Rank(Selected(o)[j])
  {
  }

  /** `getOptions`: the option itself when `typeof o === 'object'`, otherwise
      null. `typeof null` is also 'object', and null is returned for it too. */
  function GetOptions(v: Value): (r: Option<Record>)
    ensures r.Some? <==> v.Obj?
    ensures r.Some? ==> v == Obj(r.value)
  {
    match v
    case Obj(fields) => Some(fields)
    case _ => None
  }

  // ---------------------------------------------------------------------------
  // The command line built by scheduleInstall

  /** The `paths` argument: a list, one string, or null/undefined. */
  datatype Paths = Absent | Text(s: string) | List(items: seq<string>)

  /** `Array.isArray(paths) ? paths : paths?.split(' ') ?? []` */
  function NormalizePaths(p: Paths): (names: seq<string>)
    ensures p.Absent? ==> names == []
    ensures p.List? ==> names == p.items
    ensures p.Text? ==> |names| == Count(p.s, ' ') + 1 && Join(names, " ") == p.s
  {
    match p
    case Absent => []
    case Text(s) => JoinSplit(s); Split(s)
    case List(items) => items
  }

  /** 24 * 60 * 60 seconds, written in decimal as `toString` writes it. */
  const CacheMinSeconds: string := "86400"

  /** The arguments scheduleInstall hands to `installer`: the verb (`add`
      only for yarn with package names), the package names and the flags
      unchanged, and for npm alone the one-day cache suffix. */
  function InstallArgs(installer: string, paths: seq<string>, flags: seq<string>): (args: seq<string>)
    ensures |args| == 1 + |paths| + |flags| + (if installer == "npm" then 2 else 0)
    ensures args[0] == "add" <==> installer == "yarn" && |paths| > 0
    ensures args[0] == "add" || args[0] == "install"
  {
    var verb := if installer == "yarn" && |paths| > 0 then "add" else "install";
    var suffix := if installer == "npm" then ["--cache-min", CacheMinSeconds] else [];
    [verb] + paths + flags + suffix
  }

  /** Where the package names, the flags and the cache suffix sit in the
      install command line. */
  lemma InstallArgsLayout(installer: string, paths: seq<string>, flags: seq<string>)
    ensures var args := InstallArgs(installer, paths, flags);
      && args[1..1 + |paths|] == paths
      && args[1 + |paths|..1 + |paths| + |flags|] == flags
      && args[1 + |paths| + |flags|..] == (if installer == "npm" then ["--cache-min", CacheMinSeconds] else [])
  {
  }

  // ---------------------------------------------------------------------------
  // Spawning, errors and the effects of scheduleInstall

  /** What a rejected spawn carries. */
  datatype Failure = Failure(exitStatus: Value, exitSignal: Value)

  datatype SpawnResult = Spawned | SpawnFailed(failure: Failure)

  datatype Error =
    | InstallFailed(installer: string, code: Value)   // `Installation of <installer> failed with code <code>`
    | Rethrown(failure: Failure)                      // the spawn's own error, thrown again
    | AssertionFailed(message: string)

  const NoManagerMessage: string := "installDependencies needs at least one of `npm`, `bower` or `yarn` to run."

  /** One spawned command line. */
  datatype Call = Call(cmd: string, args: seq<string>)

  /** The observable state: what was logged and what was spawned, in order. */
  datatype World = World(log: seq<Message>, calls: seq<Call>)

  /** What a run did to the world, and whether it returned or threw. */
  datatype Run = Run(world: World, out: Outcome<Error>)

  /** The surroundings of the mixin: `this.opts`, the `dargs` library, and the
      spawn oracle, which answers the n-th spawn with `outcomes(n)`. */
  datatype Env = Env(opts: Record, dargs: Record -> seq<string>, outcomes: nat -> SpawnResult)

  predicate SkipInstall(opts: Record) {
    Truthy(Get(opts, "skipInstall")) || Truthy(Get(opts, "skip-install"))
  }

  predicate ForceInstall(opts: Record) {
    Truthy(Get(opts, "forceInstall")) || Truthy(Get(opts, "force-install"))
  }

  /** The flags `dargs` derives from `options ?? {}`. */
  function Flags(env: Env, options: Option<Record>): seq<string> {
    env.dargs(options.GetOr(map[]))
  }

  function CommandLine(installer: string, args: seq<string>): string {
    installer + " " + Join(args, " ")
  }

  /** A message passed to `this.log`, kept structured; `Render` gives its text. */
  datatype Message =
    | SkipNotice(installer: string, args: seq<string>)
    | Remediation(installer: string, args: seq<string>)
    | Summary(skipInstall: bool, commands: string)

  /** The remediation advice logged after a failed spawn; it ends with the
      command line to run by hand. */
  function AdviceText(installer: string, args: seq<string>): (text: string)
    ensures var line := CommandLine(installer, args);
      |line| <= |text| && text[|text| - |line|..] == line
  {
    "Could not finish installation. \n"
    + "Please install " + installer + " with " + "npm install -g " + installer + " and try again. \n"
    + "If " + installer + " is already installed, try running the following command manually: "
    + CommandLine(installer, args)
  }

  /** The opening words of the summary, up to the commands. */
  function SummaryLead(skip: bool): string {
    "\nI'm all done. " + (if skip then "Just run" else "Running") + " "
  }

  /** The message template of installDependencies: the opening words, the
      commands right after them, and a final newline. */
  function SummaryText(skip: bool, commands: string): (text: string)
    ensures var lead := SummaryLead(skip);
      && |lead| + |commands| < |text|
      && text[..|lead|] == lead
      && text[|lead|..|lead| + |commands|] == commands
      && text[|text| - 1] == '\n'
  {
    var tail := " " + (if skip then "" else "for you ") + "to install the required dependencies."
      + (if skip then "" else " If this fails, try running the command yourself.") + "\n";
    assert tail[|tail| - 1] == '\n';
    SummaryLead(skip) + commands + tail
  }

  /** The notice logged instead of spawning when installs are skipped. */
  function SkipText(installer: string, args: seq<string>): (text: string)
    ensures var line := CommandLine(installer, args);
      |line| < |text| && text[|text| - |line|..] == line
  {
    "Skipping install command: " + CommandLine(installer, args)
  }

  /** The exact text the logger receives (colouring left out): the skip
      notice and the advice end with the command line, and the summary holds
      the commands right after its opening words. */
  function Render(m: Message): (text: string)
    ensures !m.Summary? ==> var line := CommandLine(m.installer, m.args);
      |line| <= |text| && text[|text| - |line|..] == line
    ensures m.Summary? ==> |SummaryLead(m.skipInstall)| + |m.commands| < |text|
    ensures m.Summary? ==> text[|SummaryLead(m.skipInstall)|..|SummaryLead(m.skipInstall)| + |m.commands|] == m.commands
  {
    match m
    case SkipNotice(installer, args) => SkipText(installer, args)
    case Remediation(installer, args) => AdviceText(installer, args)
    case Summary(skip, commands) => SummaryText(skip, commands)
  }

  /** `Object.assign`-style merge: every property of `source` overwrites the
      property of `target` with the same name. */
  function Assign(target: Record, source: Record): (r: Record)
    ensures forall k :: k in r <==> k in target || k in source
    ensures forall k :: k in source ==> r[k] == source[k]
    ensures forall k :: k in target && k !in source ==> r[k] == target[k]
  {
    target + source
  }

  /** The summary installDependencies logs for the given command labels: the
      template's values are `assign({skipInstall: false}, this.opts,
      {commands})`, so `skipInstall` is whatever `this.opts` says (false when
      absent) and `commands` is always the joined labels. */
  function SummaryOf(opts: Record, labels: seq<string>): (m: Message)
    ensures m.Summary?
    ensures m.skipInstall <==> Truthy(Get(opts, "skipInstall"))
    ensures m.commands == Join(labels, " && ")
  {
    var values := Assign(Assign(map["skipInstall" := Bool(false)], opts), map["commands" := Str(Join(labels, " && "))]);
    assert "skipInstall" != "commands";
    Summary(Truthy(Get(values, "skipInstall")), Get(values, "commands").s)
  }

  /** What scheduleInstall logs and whether it throws, once its spawn has settled. */
  datatype Handled = Handled(logged: seq<Message>, out: Outcome<Error>)

  /** How scheduleInstall handles the outcome of its spawn: a success is
      silent; a failure throws exactly when force-install is set, as a new
      "Installation of <installer> failed" error when the failure carries both
      an exit status and an exit signal, and otherwise after logging the
      remediation advice, as the original error or not at all. */
  function OnSpawnResult(env: Env, installer: string, args: seq<string>, result: SpawnResult): (h: Handled)
    ensures h.out.Fail? <==> result.SpawnFailed? && ForceInstall(env.opts)
    ensures result.SpawnFailed? ==>
      (h.out == Fail(InstallFailed(installer, result.failure.exitStatus))
       <==> ForceInstall(env.opts) && Truthy(result.failure.exitStatus) && Truthy(result.failure.exitSignal))
    ensures h.out.Fail? && !h.out.error.InstallFailed? ==> h.out.error == Rethrown(result.failure)
    ensures h.out.Fail? && h.out.error.InstallFailed? ==> h.out.error == InstallFailed(installer, result.failure.exitStatus)
    ensures h.logged == if result.Spawned? || (h.out.Fail? && h.out.error.InstallFailed?) then []
                        else [Remediation(installer, args)]
  {
    match result
    case Spawned => Handled([], Pass)
    case SpawnFailed(e) =>
      if Truthy(e.exitStatus) && Truthy(e.exitSignal) && ForceInstall(env.opts) then
        Handled([], Fail(InstallFailed(installer, Or(e.exitStatus, e.exitSignal))))
      else
        Handled([Remediation(installer, args)], if ForceInstall(env.opts) then Fail(Rethrown(e)) else Pass)
  }

  /** What `scheduleInstall(installer, paths, options)` does, from world `w`:
      with skip-install it only logs the command line; otherwise it spawns the
      command line once and handles the oracle's answer. */
  function ScheduleSpec(env: Env, w: World, installer: string, paths: Paths, options: Option<Record>): (r: Run)
    ensures r.out.Fail? ==> !SkipInstall(env.opts) && ForceInstall(env.opts)
    ensures r.out.Fail? ==> !r.out.error.AssertionFailed?
  {
    var args := InstallArgs(installer, NormalizePaths(paths), Flags(env, options));
    if SkipInstall(env.opts) then
      Run(World(w.log + [SkipNotice(installer, args)], w.calls), Pass)
    else
      var h := OnSpawnResult(env, installer, args, env.outcomes(|w.calls|));
      Run(World(w.log + h.logged, w.calls + [Call(installer, args)]), h.out)
  }

  /** The decision table of scheduleInstall: with skip-install, exactly one
      message is logged and nothing is spawned; otherwise the command line is
      spawned exactly once, and the call throws exactly when the spawn failed
      and force-install is set. The log is only ever appended to. */
  lemma ScheduleDecisionTable(env: Env, w: World, installer: string, paths: Paths, options: Option<Record>)
    ensures var run := ScheduleSpec(env, w, installer, paths, options);
      var args := InstallArgs(installer, NormalizePaths(paths), Flags(env, options));
      && (SkipInstall(env.opts) ==>
            run == Run(World(w.log + [SkipNotice(installer, args)], w.calls), Pass))
      && (!SkipInstall(env.opts) ==> run.world.calls == w.calls + [Call(installer, args)])
      && (run.out.Fail? <==> !SkipInstall(env.opts) && env.outcomes(|w.calls|).SpawnFailed? && ForceInstall(env.opts))
      && w.log <= run.world.log && |run.world.log| <= |w.log| + 1
  {
  }

  /** The call installDependencies makes for manager `m`:
      `<m>Install(null, getOptions(options.<m>))`. */
  function ManagerStep(env: Env, w: World, o: InstallOptions, m: Manager): Run {
    ScheduleSpec(env, w, Executable(m), Absent, GetOptions(ManagerValue(o, m)))
  }

  /** The command line spawned for manager `m` by installDependencies. */
  function ManagerCall(env: Env, o: InstallOptions, m: Manager): Call {
    Call(Executable(m), InstallArgs(Executable(m), [], Flags(env, GetOptions(ManagerValue(o, m)))))
  }

  /** The command lines of the managers `ms`, one each, in order. */
  function ManagerCalls(env: Env, o: InstallOptions, ms: seq<Manager>): (cs: seq<Call>)
    ensures |cs| == |ms|
    ensures forall i :: 0 <= i < |ms| ==> cs[i] == ManagerCall(env, o, ms[i])
  {
    if ms == [] then [] else [ManagerCall(env, o, ms[0])] + ManagerCalls(env, o, ms[1..])
  }

  /** The skip notices of the managers `ms`, one each, in order. */
  function SkipNotices(env: Env, o: InstallOptions, ms: seq<Manager>): (ls: seq<Message>)
    ensures |ls| == |ms|
    ensures forall i :: 0 <= i < |ms| ==> ls[i] == SkipNotice(Executable(ms[i]), ManagerCall(env, o, ms[i]).args)
  {
    if ms == [] then []
    else [SkipNotice(Executable(ms[0]), ManagerCall(env, o, ms[0]).args)] + SkipNotices(env, o, ms[1..])
  }

  /** Runs the managers `ms` one after another; the first exception stops the
      run. A run only appends to the log and the calls, and never raises the assertion error of installDependencies. */
  function RunManagers(env: Env, w: World, o: InstallOptions, ms: seq<Manager>): (r: Run)
    ensures w.log <= r.world.log && w.calls <= r.world.calls
    ensures r.out.Fail? ==> !r.out.error.AssertionFailed?
    decreases |ms|
  {
    if ms == [] then Run(w, Pass)
    else
      var step := ManagerStep(env, w, o, ms[0]);
      if step.out.Fail? then step else RunManagers(env, step.world, o, ms[1..])
  }

  /** What `installDependencies(options)` does, from world `w`: it only appends
      to the log and the calls, and fails its assertion only before doing
      anything. */
  function InstallDependenciesSpec(env: Env, w: World, options: Option<InstallOptions>): (r: Run)
    ensures w.log <= r.world.log && w.calls <= r.world.calls
    ensures r.out == Fail(AssertionFailed(NoManagerMessage)) ==> r.world == w
  {
    var o := OrNoOptions(options);
    var ms := Selected(o);
    var ran := RunManagers(env, w, o, ms);
    if ran.out.Fail? then ran
    else if ms == [] then Run(ran.world, Fail(AssertionFailed(NoManagerMessage)))
    else if Truthy(o.skipMessage) then ran
    else Run(World(ran.world.log + [SummaryOf(env.opts, Labels(ms))], ran.world.calls), Pass)
  }

  // ---------------------------------------------------------------------------
  // Properties of the reference behaviour

  /** Running `a + b` is running `a`, then, unless `a` threw, running `b`. */
  lemma {:induction false} RunManagersAppend(env: Env, w: World, o: InstallOptions, a: seq<Manager>, b: seq<Manager>)
    ensures var first := RunManagers(env, w, o, a);
      RunManagers(env, w, o, a + b) == if first.out.Fail? then first else RunManagers(env, first.world, o, b)
    decreases |a|
  {
    if a != [] {
      assert (a + b)[0] == a[0] && (a + b)[1..] == a[1..] + b;
      var step := ManagerStep(env, w, o, a[0]);
      if !step.out.Fail? {
        RunManagersAppend(env, step.world, o, a[1..], b);
      }
    } else {
      assert a + b == b;
    }
  }

  /** With skip-install set, no manager spawns anything: each logs its skip
      message, in order, and the run completes. */
  lemma {:induction false} SkipInstallSpawnsNothing(env: Env, w: World, o: InstallOptions, ms: seq<Manager>)
    requires SkipInstall(env.opts)
    ensures RunManagers(env, w, o, ms) == Run(World(w.log + SkipNotices(env, o, ms), w.calls), Pass)
    decreases |ms|
  {
    if ms != [] {
      var step := ManagerStep(env, w, o, ms[0]);
      var notice := SkipNotice(Executable(ms[0]), ManagerCall(env, o, ms[0]).args);
      assert step == Run(World(w.log + [notice], w.calls), Pass);
      SkipInstallSpawnsNothing(env, step.world, o, ms[1..]);
      assert SkipNotices(env, o, ms) == [notice] + SkipNotices(env, o, ms[1..]);
      AppendAssoc(w.log, [notice], SkipNotices(env, o, ms[1..]));
    }
  }

  /** Without skip-install, the managers spawn their command lines in order, one
      each, until one of them throws (after its own spawn); if none throws, all
      of them have spawned. When the run throws, the `k`-th manager is the one
      that threw: the first `k - 1` complete, and the run stops right there. */
  lemma {:induction false} CallsFollowManagers(env: Env, w: World, o: InstallOptions, ms: seq<Manager>) returns (k: nat)
    requires !SkipInstall(env.opts)
    ensures k <= |ms|
    ensures RunManagers(env, w, o, ms).world.calls == w.calls + ManagerCalls(env, o, ms[..k])
    ensures RunManagers(env, w, o, ms).out.Pass? ==> k == |ms|
    ensures RunManagers(env, w, o, ms).out.Fail? ==> k >= 1
    ensures RunManagers(env, w, o, ms).out.Fail? ==>
      RunManagers(env, w, o, ms[..k - 1]).out.Pass? && RunManagers(env, w, o, ms[..k]) == RunManagers(env, w, o, ms)
    decreases |ms|
  {
    if ms == [] {
      assert ms[..0] == [];
      k := 0;
    } else {
      var step := ManagerStep(env, w, o, ms[0]);
      ManagerStepSpawns(env, w, o, ms[0]);
      if step.out.Fail? {
        assert ms[..1] == [ms[0]];
        assert ms[..0] == [];
        RunManagersSingle(env, w, o, ms[0]);
        k := 1;
      } else {
        var j := CallsFollowManagers(env, step.world, o, ms[1..]);
        k := j + 1;
        RunManagersUnfold(env, w, o, ms);
        ManagerCallsCons(env, o, ms, k);
        AppendAssoc(w.calls, [ManagerCall(env, o, ms[0])], ManagerCalls(env, o, ms[1..][..j]));
        if RunManagers(env, w, o, ms).out.Fail? {
          RunPrefixUnfold(env, w, o, ms, k - 1);
          RunPrefixUnfold(env, w, o, ms, k);
        }
      }
    }
  }

  lemma AppendAssoc<T>(a: seq<T>, b: seq<T>, c: seq<T>)
    ensures (a + b) + c == a + (b + c)
  {
  }

  lemma RunManagersSingle(env: Env, w: World, o: InstallOptions, m: Manager)
    ensures var step := ManagerStep(env, w, o, m);
      RunManagers(env, w, o, [m]) == if step.out.Fail? then step else Run(step.world, Pass)
  {
    assert [m][1..] == [];
  }

  /** Running one more manager after a completed run of `done`. */
  lemma RunManagersStep(env: Env, w: World, o: InstallOptions, done: seq<Manager>, m: Manager, before: World)
    requires RunManagers(env, w, o, done) == Run(before, Pass)
    ensures var step := ManagerStep(env, before, o, m);
      RunManagers(env, w, o, done + [m]) == if step.out.Fail? then step else Run(step.world, Pass)
  {
    RunManagersSingle(env, before, o, m);
    RunManagersAppend(env, w, o, done, [m]);
  }

  /** A run that has thrown is not continued. */
  lemma RunManagersStop(env: Env, w: World, o: InstallOptions, a: seq<Manager>, b: seq<Manager>)
    requires RunManagers(env, w, o, a).out.Fail?
    ensures RunManagers(env, w, o, a + b) == RunManagers(env, w, o, a)
  {
    RunManagersAppend(env, w, o, a, b);
  }

  /** One step of RunManagers, when the first manager does not throw. */
  lemma RunManagersUnfold(env: Env, w: World, o: InstallOptions, ms: seq<Manager>)
    requires ms != [] && !ManagerStep(env, w, o, ms[0]).out.Fail?
    ensures RunManagers(env, w, o, ms) == RunManagers(env, ManagerStep(env, w, o, ms[0]).world, o, ms[1..])
  {
  }

  /** The first `n` managers, when the first of them does not throw. */
  lemma RunPrefixUnfold(env: Env, w: World, o: InstallOptions, ms: seq<Manager>, n: nat)
    requires 1 <= n <= |ms| && !ManagerStep(env, w, o, ms[0]).out.Fail?
    ensures RunManagers(env, w, o, ms[..n])
         == RunManagers(env, ManagerStep(env, w, o, ms[0]).world, o, ms[1..][..n - 1])
  {
    assert ms[..n][0] == ms[0] && ms[..n][1..] == ms[1..][..n - 1];
    RunManagersUnfold(env, w, o, ms[..n]);
  }

  lemma ManagerStepSpawns(env: Env, w: World, o: InstallOptions, m: Manager)
    requires !SkipInstall(env.opts)
    ensures ManagerStep(env, w, o, m).world.calls == w.calls + [ManagerCall(env, o, m)]
  {
  }

  lemma ManagerCallsCons(env: Env, o: InstallOptions, ms: seq<Manager>, k: nat)
    requires 1 <= k <= |ms|
    ensures ManagerCalls(env, o, ms[..k]) == [ManagerCall(env, o, ms[0])] + ManagerCalls(env, o, ms[1..][..k - 1])
  {
    assert ms[..k][1..] == ms[1..][..k - 1];
  }

  /** installDependencies fails its assertion exactly when no manager is enabled. */
  lemma AssertionIffNothingSelected(env: Env, w: World, options: Option<InstallOptions>)
    ensures var o := OrNoOptions(options);
      InstallDependenciesSpec(env, w, options).out == Fail(AssertionFailed(NoManagerMessage))
      <==> o.npm == Bool(false) && !Truthy(o.yarn) && !Truthy(o.bower)
  {
    var o := OrNoOptions(options);
    if Selected(o) != [] {
      var m := Selected(o)[0];
      assert Enabled(o, m);
    }
  }

  /** After a completed run, the summary is logged exactly when `skipMessage`
      is falsy, and it names the labels of the chosen managers, joined by
      `' && '` in run order. */
  lemma CompletionMessageLogged(env: Env, w: World, options: Option<InstallOptions>)
    requires InstallDependenciesSpec(env, w, options).out.Pass?
    ensures var o := OrNoOptions(options);
      var run := InstallDependenciesSpec(env, w, options);
      var ran := RunManagers(env, w, o, Selected(o));
      && run.world.calls == ran.world.calls
      && (Truthy(o.skipMessage) ==> run.world.log == ran.world.log)
      && (!Truthy(o.skipMessage) ==>
            run.world.log == ran.world.log + [SummaryOf(env.opts, Labels(Selected(o)))])
  {
  }

  /** With skip-install set, installDependencies spawns nothing at all. */
  lemma SkipInstallNeverSpawns(env: Env, w: World, options: Option<InstallOptions>)
    requires SkipInstall(env.opts)
    ensures InstallDependenciesSpec(env, w, options).world.calls == w.calls
  {
    var o := OrNoOptions(options);
    SkipInstallSpawnsNothing(env, w, o, Selected(o));
  }

  /** Without options only npm runs (bower is off by default), and its command
      line is `npm install --cache-min 86400` plus the flags of `{}`. */
  lemma DefaultsRunNpmOnly(env: Env)
    ensures Selected(OrNoOptions(None)) == [Npm]
    ensures ManagerCall(env, OrNoOptions(None), Npm).args
            == ["install"] + env.dargs(map[]) + ["--cache-min", "86400"]
  {
  }

  /** A yarn install with a package list uses the verb `add`; one without, `install`. */
  lemma YarnVerb(flags: seq<string>, paths: Paths)
    ensures InstallArgs("yarn", NormalizePaths(paths), flags)[0]
            == if NormalizePaths(paths) == [] then "install" else "add"
  {
  }

  /** An empty `paths` string is split into one empty package name, so yarn
      switches to `add` and `""` is passed on the command line. */
  lemma EmptyPathStringIsOnePackage(flags: seq<string>)
    ensures NormalizePaths(Text("")) == [""]
    ensures InstallArgs("yarn", NormalizePaths(Text("")), flags) == ["add", ""] + flags
  {
    assert Split("") == [""];
  }

  /** A space-separated `paths` string and its list of names build the same
      command line, and the package names can be read back from it. */
  lemma PathStringMatchesList(installer: string, names: seq<string>, flags: seq<string>)
    requires |names| >= 1
    requires forall i :: 0 <= i < |names| ==> ' ' !in names[i]
    ensures NormalizePaths(Text(Join(names, " "))) == names
    ensures InstallArgs(installer, NormalizePaths(Text(Join(names, " "))), flags)
            == InstallArgs(installer, NormalizePaths(List(names)), flags)
  {
    SplitJoin(names);
  }

  /** Only the camelCase `skipInstall` reaches the summary: with `skip-install`
      alone nothing is spawned, yet the summary says the commands are being
      run for the user. */
  lemma KebabSkipStillSaysRunning(env: Env, w: World, options: Option<InstallOptions>)
    requires Truthy(Get(env.opts, "skip-install")) && !Truthy(Get(env.opts, "skipInstall"))
    requires var o := OrNoOptions(options); Selected(o) != [] && !Truthy(o.skipMessage)
    ensures var run := InstallDependenciesSpec(env, w, options);
      && run.out.Pass? && run.world.calls == w.calls
      && |run.world.log| > 0
      && run.world.log[|run.world.log| - 1].Summary?
      && !run.world.log[|run.world.log| - 1].skipInstall
  {
    var o := OrNoOptions(options);
    SkipInstallSpawnsNothing(env, w, o, Selected(o));
  }

  /** The step-by-step construction of scheduleInstall yields InstallArgs. */
  lemma ArgsBuilt(installer: string, paths: seq<string>, flags: seq<string>, args: seq<string>)
    requires var base := ["install"] + paths + flags;
      var verb := if installer == "yarn" && |paths| > 0 then base[0 := "add"] else base;
      args == if installer == "npm" then verb + ["--cache-min", CacheMinSeconds] else verb
    ensures args == InstallArgs(installer, paths, flags)
  {
  }

  // ---------------------------------------------------------------------------
  // The mixin

  class Installer {
    /** `this.opts` */
    const opts: Record
    /** The `dargs` library: an options record to its command-line flags. */
    const dargs: Record -> seq<string>
    /** The spawn oracle: the n-th spawn of this object resolves as `outcomes(n)`. */
    const outcomes: nat -> SpawnResult
    /** Messages passed to `this.log`, in order. */
    var log: seq<Message>
    /** Command lines passed to `this.spawn`, in order. */
    var calls: seq<Call>

    function Surroundings(): Env {
      Env(opts, dargs, outcomes)
    }

    function State(): World
      reads this
    {
      World(log, calls)
    }

    constructor (opts: Record, dargs: Record -> seq<string>, outcomes: nat -> SpawnResult)
      ensures this.opts == opts && this.dargs == dargs && this.outcomes == outcomes
      ensures log == [] && calls == []
    {
      this.opts := opts;
      this.dargs := dargs;
      this.outcomes := outcomes;
      log := [];
      calls := [];
    }

    /** `this.log(message)` */
    method Log(message: Message)
      modifies this
      ensures log == old(log) + [message] && calls == old(calls)
    {
      log := log + [message];
    }

    /** `this.spawn(cmd, args)`: resolves or rejects as the oracle says. */
    method Spawn(cmd: string, args: seq<string>) returns (result: SpawnResult)
      modifies this
      ensures calls == old(calls) + [Call(cmd, args)] && log == old(log)
      ensures result == outcomes(|old(calls)|)
    {
      result := outcomes(|calls|);
      calls := calls + [Call(cmd, args)];
    }

    /** The command-line construction of scheduleInstall: normalise `paths`,
        append the flags of `options`, switch yarn to `add` when packages are
        named, and give npm a one-day minimum cache. */
    method BuildArgs(installer: string, paths: Paths, options: Option<Record>) returns (args: seq<string>)
      ensures args == InstallArgs(installer, NormalizePaths(paths), Flags(Surroundings(), options))
    {
      var options := options.GetOr(map[]);
      var paths: seq<string> := NormalizePaths(paths);
      args := ["install"] + paths + dargs(options);
      if installer == "yarn" && |paths| > 0 {
        args := args[0 := "add"];
      }
      if installer == "npm" {
        args := args + ["--cache-min", CacheMinSeconds];
      }
      ArgsBuilt(installer, paths, dargs(options), args);
    }

    /** Builds the command line of `installer` and runs it, unless installs are
        skipped; a failed spawn is reported and, with force-install, thrown. */
    method ScheduleInstall(installer: string, paths: Paths, options: Option<Record>) returns (r: Outcome<Error>)
      modifies this
      ensures Run(State(), r) == ScheduleSpec(Surroundings(), old(State()), installer, paths, options)
    {
      ghost var w := State();
      ghost var spec := ScheduleSpec(Surroundings(), w, installer, paths, options);
      var args := BuildArgs(installer, paths, options);

      if Truthy(Get(opts, "skipInstall")) || Truthy(Get(opts, "skip-install")) {
        assert spec == Run(World(w.log + [SkipNotice(installer, args)], w.calls), Pass);
        Log(SkipNotice(installer, args));
        return Pass;
      }

      var result := Spawn(installer, args);
      ghost var h := OnSpawnResult(Surroundings(), installer, args, result);
      assert spec == Run(World(w.log + h.logged, w.calls + [Call(installer, args)]), h.out);
      r := Pass;
      if result.SpawnFailed? {
        var e := result.failure;
        var force := Truthy(Get(opts, "forceInstall")) || Truthy(Get(opts, "force-install"));
        if Truthy(e.exitStatus) && Truthy(e.exitSignal) && force {
          return Fail(InstallFailed(installer, Or(e.exitStatus, e.exitSignal)));
        }
        Log(Remediation(installer, args));
        if force {
          r := Fail(Rethrown(e));
        }
      }
    }

    method NpmInstall(paths: Paths, options: Option<Record>) returns (r: Outcome<Error>)
      modifies this
      ensures Run(State(), r) == ScheduleSpec(Surroundings(), old(State()), "npm", paths, options)
    {
      r := ScheduleInstall("npm", paths, options);
    }

    method YarnInstall(paths: Paths, options: Option<Record>) returns (r: Outcome<Error>)
      modifies this
      ensures Run(State(), r) == ScheduleSpec(Surroundings(), old(State()), "yarn", paths, options)
    {
      r := ScheduleInstall("yarn", paths, options);
    }

    method BowerInstall(paths: Paths, options: Option<Record>) returns (r: Outcome<Error>)
      modifies this
      ensures Run(State(), r) == ScheduleSpec(Surroundings(), old(State()), "bower", paths, options)
    {
      r := ScheduleInstall("bower", paths, options);
    }

    /** One guarded install call of installDependencies: when manager `m` is
        enabled, its label is pushed onto `commands` and its install runs;
        otherwise nothing happens. Continues a completed run of `done`. */
    method InstallIfEnabled(o: InstallOptions, m: Manager, commands: seq<string>, ghost w0: World, ghost done: seq<Manager>)
      returns (r: Outcome<Error>, pushed: seq<string>)
      modifies this
      requires RunManagers(Surroundings(), w0, o, done) == Run(State(), Pass)
      requires commands == Labels(done)
      ensures var now := done + (if Enabled(o, m) then [m] else []);
        && Run(State(), r) == RunManagers(Surroundings(), w0, o, now)
        && (r.Pass? ==> pushed == Labels(now))
    {
      if !Enabled(o, m) {
        assert done + [] == done;
        return Pass, commands;
      }
      ghost var before := State();
      pushed := commands + [Label(m)];
      match m {
        case Npm => r := NpmInstall(Absent, GetOptions(o.npm));
        case Yarn => r := YarnInstall(Absent, GetOptions(o.yarn));
        case Bower => r := BowerInstall(Absent, GetOptions(o.bower));
      }
      RunManagersStep(Surroundings(), w0, o, done, m, before);
      LabelsAppend(done, m);
    }

    /** The three guarded install calls of installDependencies: npm, yarn and
        bower, as enabled and in that order, each label pushed onto `commands`
        before its install runs; an exception from an install ends the run. */
    method RunEnabled(o: InstallOptions) returns (r: Outcome<Error>, commands: seq<string>)
      modifies this
      ensures Run(State(), r) == RunManagers(Surroundings(), old(State()), o, Selected(o))
      ensures r.Pass? ==> commands == Labels(Selected(o))
    {
      ghost var env := Surroundings();
      ghost var w0 := State();
      ghost var npmPart := if Enabled(o, Npm) then [Npm] else [];
      ghost var yarnPart := if Enabled(o, Yarn) then [Yarn] else [];
      ghost var bowerPart := if Enabled(o, Bower) then [Bower] else [];
      assert Selected(o) == npmPart + yarnPart + bowerPart;

      r, commands := InstallIfEnabled(o, Npm, [], w0, []);
      assert [] + npmPart == npmPart;
      if r.Fail? {
        RunManagersStop(env, w0, o, npmPart, yarnPart + bowerPart);
        AppendAssoc(npmPart, yarnPart, bowerPart);
        return;
      }
      r, commands := InstallIfEnabled(o, Yarn, commands, w0, npmPart);
      if r.Fail? {
        RunManagersStop(env, w0, o, npmPart + yarnPart, bowerPart);
        return;
      }
      r, commands := InstallIfEnabled(o, Bower, commands, w0, npmPart + yarnPart);
    }

    /** Runs npm, yarn and bower, as enabled, in that order; asserts that at
        least one ran and logs a summary unless `skipMessage` is set. */
    method InstallDependencies(options: Option<InstallOptions>) returns (r: Outcome<Error>)
      modifies this
      ensures Run(State(), r) == InstallDependenciesSpec(Surroundings(), old(State()), options)
    {
      var o := OrNoOptions(options);
      var commands;
      r, commands := RunEnabled(o);
      if r.Fail? {
        return;
      }
      if |commands| == 0 {
        return Fail(AssertionFailed(NoManagerMessage));
      }
      if !Truthy(o.skipMessage) {
        Log(SummaryOf(opts, commands));
      }
    }
  }
}
