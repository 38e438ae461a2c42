/** The bootstrap decision procedure of src/install.js: `installOtter` and
    `checkAndInstall`.

    The host is an immutable record of oracles (`Env`): which files exist,
    what each `--version` probe prints, and how each child process ends.
    Where a step changes the host (the uv installer, `uv pip install`), the
    record holds a second oracle for the host as that step leaves it.
    `Bootstrap` is the procedure as a function from the host to its outcome
    and the trace of stages it went through; `CheckAndInstall` runs the same
    procedure step by step and is proved to agree with it. */
module Install {
  import opened Wrappers
  import opened Version
  import opened Prober

  // ---------------------------------------------------------------------
  // Layout

  /** `OTTER_HOME`: `~/.otter`. */
  function OtterHome(home: Path): Path {
    home + [".otter"]
  }

  /** `VENV_DIR`: `~/.otter/venv`. */
  function VenvDir(home: Path): Path {
    OtterHome(home) + ["venv"]
  }

  /** `OTTER_BIN`: the entry point inside the virtual environment. */
  function OtterBin(home: Path, isWindows: bool): (bin: Path)
    ensures |bin| == |home| + 4 && bin[..|home| + 2] == VenvDir(home)
    ensures isWindows ==> bin[|bin| - 2..] == ["Scripts", "otter.exe"]
    ensures !isWindows ==> bin[|bin| - 2..] == ["bin", "otter"]
  {
    VenvDir(home) + if isWindows then ["Scripts", "otter.exe"] else ["bin", "otter"]
  }

  // ---------------------------------------------------------------------
  // The host

  datatype Env = Env(
    isWindows: bool,
    home: Path,
    /** `fs.existsSync` before any install step. */
    fileExists: Path -> bool,
    /** `<path> --version`, trimmed, before any install step. */
    probe: VersionProbe,
    /** Output of `command -v otter` (`where otter` on Windows). */
    whichOtter: Option<string>,
    /** Exit code of the uv installer script; `None` when the child could not
        be spawned or ended without an exit code. */
    uvInstallExit: Option<int>,
    /** `<path> --version` once the uv installer has run. */
    probeAfterUvInstall: VersionProbe,
    /** Output of the shell form `"<uv>" venv "<VENV_DIR>"`, per uv path. */
    venvQuoted: Path -> Option<string>,
    /** Output of the argument-list form `uv venv <VENV_DIR>`, per uv path. */
    venvArgv: Path -> Option<string>,
    /** Exit code of `uv pip install --python <VENV_DIR> git+https://...`. */
    pipInstallExit: Path -> Option<int>,
    /** `fs.existsSync` once `uv pip install` has run. */
    existsAfterInstall: Path -> bool
  )

  // ---------------------------------------------------------------------
  // Stages, outcomes and traces

  /** The stages of the procedure, in the order they can happen. */
  datatype Step =
    | CheckVenvBinary   // existsSync(OTTER_BIN) and, if present, its --version probe
    | CheckPathOtter    // command -v otter and, if it names a path, its --version probe
    | CheckPython       // findPython
    | CheckUv           // findUv
    | InstallUv         // the curl/powershell uv installer
    | RecheckUv         // findUv after the installer
    | MakeHome          // mkdirSync(OTTER_HOME, { recursive: true })
    | VenvQuoted        // the shell form of `uv venv`
    | VenvArgv          // the argument-list form of `uv venv`
    | PipInstall        // uv pip install of otter-ml
    | CheckBinary       // existsSync(OTTER_BIN) after the install
    | AnnounceReady     // "Ready! Starting Otter..."

  /** Position of a stage in the state machine. */
  function Rank(s: Step): nat {
    match s
    case CheckVenvBinary => 0
    case CheckPathOtter => 1
    case CheckPython => 2
    case CheckUv => 3
    case InstallUv => 4
    case RecheckUv => 5
    case MakeHome => 6
    case VenvQuoted => 7
    case VenvArgv => 8
    case PipInstall => 9
    case CheckBinary => 10
    case AnnounceReady => 11
  }

  /** A trace never goes back: each stage comes strictly after the one
      before it in the state machine. */
  predicate Ordered(t: seq<Step>) {
    |t| <= 1 || (Rank(t[0]) < Rank(t[1]) && Ordered(t[1..]))
  }

  /** All stages of a trace lie between two positions of the state machine. */
  predicate Within(t: seq<Step>, lo: nat, hi: nat) {
    t == [] || (lo <= Rank(t[0]) <= hi && Within(t[1..], lo, hi))
  }

  /** The stages that change the host. */
  predicate InstallWork(s: Step) {
    s.InstallUv? || s.MakeHome? || s.VenvQuoted? || s.VenvArgv? || s.PipInstall?
  }

  datatype Failure =
    | PythonMissing                      // "Python 3.10+ is required but not found."
    | UvInstallFailed(exit: Option<int>) // "Failed to install uv: uv install failed (exit ...)"
    | UvMissingAfterInstall              // "Failed to install uv: uv not found after install"
    | VenvCreationFailed                 // "Failed to install otter-ml: Failed to create virtual environment"
    | OtterInstallFailed(exit: Option<int>) // "Failed to install otter-ml: otter-ml install failed (exit ...)"
    | BinaryMissing                      // "otter binary not found after install."

  datatype Outcome =
    | Found(path: Path)      // a fast path: an existing, answering binary
    | Installed(path: Path)  // the install path ran to the end
    | Fatal(reason: Failure) // a diagnostic and process.exit(1)

  /** The status the process exits with before launching anything, if any. */
  function ExitStatus(o: Outcome): Option<int> {
    if o.Fatal? then Some(1) else None
  }

  datatype Run = Run(outcome: Outcome, trace: seq<Step>)

  /** The result and trace of one stage of the install path. */
  datatype Stage<T> = Stage(result: Result<T, Failure>, steps: seq<Step>)

  /** Two ordered traces, the second starting after the first ends, make an
      ordered trace. */
  lemma {:induction false} OrderedConcat(a: seq<Step>, b: seq<Step>)
    requires Ordered(a) && Ordered(b)
    requires a != [] && b != [] ==> Rank(a[|a| - 1]) < Rank(b[0])
    ensures Ordered(a + b)
    decreases |a|
  {
    if a != [] {
      assert (a + b)[1..] == a[1..] + b;
      if |a| > 1 {
        OrderedConcat(a[1..], b);
      }
    } else {
      assert a + b == b;
    }
  }

  /** In an ordered trace every stage comes before all stages of higher
      rank: a stage occurs at most once, and never after a later one. */
  lemma {:induction false} OrderedPrecedes(t: seq<Step>, i: nat, j: nat)
    requires Ordered(t) && i < j < |t|
    ensures Rank(t[i]) < Rank(t[j])
    decreases |t|
  {
    assert t[1..][j - 1] == t[j];
    if i == 0 {
      if j > 1 {
        OrderedPrecedes(t[1..], 0, j - 1);
      }
    } else {
      assert t[1..][i - 1] == t[i];
      OrderedPrecedes(t[1..], i - 1, j - 1);
    }
  }

  /** Every stage of a trace within two positions lies between them. */
  lemma {:induction false} WithinAt(t: seq<Step>, lo: nat, hi: nat, i: nat)
    requires Within(t, lo, hi) && i < |t|
    ensures lo <= Rank(t[i]) <= hi
    decreases i
  {
    if i > 0 {
      WithinAt(t[1..], lo, hi, i - 1);
    }
  }

  /** A trace within two positions is within any wider range. */
  lemma {:induction false} WithinWiden(t: seq<Step>, lo: nat, hi: nat, lo': nat, hi': nat)
    requires Within(t, lo, hi) && lo' <= lo && hi <= hi'
    ensures Within(t, lo', hi')
    decreases |t|
  {
    if t != [] {
      WithinWiden(t[1..], lo, hi, lo', hi');
    }
  }

  /** Two traces within the same positions make one. */
  lemma {:induction false} WithinConcat(a: seq<Step>, b: seq<Step>, lo: nat, hi: nat)
    requires Within(a, lo, hi) && Within(b, lo, hi)
    ensures Within(a + b, lo, hi)
    decreases |a|
  {
    if a == [] {
      assert a + b == b;
    } else {
      assert (a + b)[1..] == a[1..] + b;
      WithinConcat(a[1..], b, lo, hi);
    }
  }

  /** A stage outside a trace's range of positions does not occur in it. */
  lemma {:induction false} NotWithin(t: seq<Step>, lo: nat, hi: nat, s: Step)
    requires Within(t, lo, hi) && !(lo <= Rank(s) <= hi)
    ensures s !in t
    decreases |t|
  {
    if t != [] {
      NotWithin(t[1..], lo, hi, s);
      assert t == [t[0]] + t[1..];
    }
  }

  // ---------------------------------------------------------------------
  // Fast paths

  /** `OTTER_BIN` exists and its version probe comes back (`!== null`). */
  predicate FastPathVenv(env: Env) {
    var bin := OtterBin(env.home, env.isWindows);
    env.fileExists(bin) && env.probe(bin).Some?
  }

  /** `otter` is on PATH, resolves to a non-empty path (`if (otterPath)`), and
      that path's version probe comes back. */
  predicate FastPathOnPath(env: Env) {
    env.whichOtter.Some? && env.whichOtter.value != "" && env.probe([env.whichOtter.value]).Some?
  }

  // ---------------------------------------------------------------------
  // Resolving uv

  /** `findUv`, and when it finds nothing, `installUv` and a second
      `findUv`, as a specification. */
  function UvStage(env: Env): Stage<Path> {
    match UvChoice(env.home, env.isWindows, env.probe)
    case Some(uv) => Stage(Ok(uv), [CheckUv])
    case None =>
      if env.uvInstallExit != Some(0) then Stage(Err(UvInstallFailed(env.uvInstallExit)), [CheckUv, InstallUv])
      else
        match UvChoice(env.home, env.isWindows, env.probeAfterUvInstall)
        case None => Stage(Err(UvMissingAfterInstall), [CheckUv, InstallUv, RecheckUv])
        case Some(uv) => Stage(Ok(uv), [CheckUv, InstallUv, RecheckUv])
  }

  /** The uv stage starts with `findUv` and moves forward through positions
      3 to 5. */
  lemma UvStageTrace(env: Env)
    ensures var r := UvStage(env);
      Ordered(r.steps) && Within(r.steps, 3, 5) && r.steps != [] && r.steps[0] == CheckUv
  {
  }

  /** The installer runs exactly when the first `findUv` finds nothing, and
      `findUv` runs again exactly when the installer exits with 0; the uv
      used is the one found by the last `findUv`, and each failure is
      reported with its own reason. The stage succeeds exactly when the
      first `findUv` finds uv, or the installer exits with 0 and the second
      `findUv` finds it. */
  lemma UvStageSpec(env: Env)
    ensures var r := UvStage(env);
      InstallUv in r.steps <==> UvChoice(env.home, env.isWindows, env.probe).None?
    ensures var r := UvStage(env);
      RecheckUv in r.steps <==> InstallUv in r.steps && env.uvInstallExit == Some(0)
    ensures var r := UvStage(env);
      r.result.Ok? && InstallUv !in r.steps ==> Some(r.result.value) == UvChoice(env.home, env.isWindows, env.probe)
    ensures var r := UvStage(env);
      r.result.Ok? && InstallUv in r.steps ==> Some(r.result.value) == UvChoice(env.home, env.isWindows, env.probeAfterUvInstall)
    ensures var r := UvStage(env);
      r.result.Err? ==> InstallUv in r.steps
    ensures var r := UvStage(env);
      r.result.Err? && RecheckUv !in r.steps ==> r.result.error == UvInstallFailed(env.uvInstallExit)
    ensures var r := UvStage(env);
      r.result.Err? && RecheckUv in r.steps ==> r.result.error == UvMissingAfterInstall
    ensures UvStage(env).result.Ok? <==>
      || UvChoice(env.home, env.isWindows, env.probe).Some?
      || (env.uvInstallExit == Some(0) && UvChoice(env.home, env.isWindows, env.probeAfterUvInstall).Some?)
  {
    var r := UvStage(env);
    if UvChoice(env.home, env.isWindows, env.probe).Some? {
      assert r.steps == [CheckUv];
    } else if env.uvInstallExit != Some(0) {
      assert r.steps == [CheckUv, InstallUv];
    } else {
      assert r.steps == [CheckUv, InstallUv, RecheckUv];
    }
  }

  // ---------------------------------------------------------------------
  // installOtter

  /** The venv step of `installOtter`, as a specification: skipped when
      `VENV_DIR` exists; otherwise the shell form, then the argument-list
      form only if the shell form failed; both failing is an error. */
  function VenvStage(env: Env, uv: Path): Stage<()> {
    if env.fileExists(VenvDir(env.home)) then Stage(Ok(()), [])
    else if env.venvQuoted(uv).Some? then Stage(Ok(()), [MakeHome, VenvQuoted])
    else if env.venvArgv(uv).Some? then Stage(Ok(()), [MakeHome, VenvQuoted, VenvArgv])
    else Stage(Err(VenvCreationFailed), [MakeHome, VenvQuoted, VenvArgv])
  }

  /** The venv step moves forward through positions 6 to 8. */
  lemma VenvStageTrace(env: Env, uv: Path)
    ensures var r := VenvStage(env, uv);
      Ordered(r.steps) && Within(r.steps, 6, 8)
  {
  }

  /** The venv step does nothing when `VENV_DIR` exists, and otherwise
      creates `OTTER_HOME` and runs the shell form; the argument-list form
      runs exactly when the shell form fails, and the step fails exactly when
      both do. */
  lemma VenvStageSpec(env: Env, uv: Path)
    ensures var r := VenvStage(env, uv);
      env.fileExists(VenvDir(env.home)) <==> r.steps == []
    ensures var r := VenvStage(env, uv);
      !env.fileExists(VenvDir(env.home)) ==> |r.steps| >= 2 && r.steps[0] == MakeHome && r.steps[1] == VenvQuoted
    ensures var r := VenvStage(env, uv);
      VenvArgv in r.steps <==> !env.fileExists(VenvDir(env.home)) && env.venvQuoted(uv).None?
    ensures var r := VenvStage(env, uv);
      r.result.Err? <==> VenvArgv in r.steps && env.venvArgv(uv).None?
    ensures var r := VenvStage(env, uv);
      r.result.Err? ==> r.result.error == VenvCreationFailed
  {
  }

  /** `installOtter`, as a specification: the venv step, then `uv pip
      install`, which succeeds only with exit code 0. */
  function InstallStage(env: Env, uv: Path): Stage<()> {
    var venv := VenvStage(env, uv);
    if venv.result.Err? then venv
    else if env.pipInstallExit(uv) == Some(0) then Stage(Ok(()), venv.steps + [PipInstall])
    else Stage(Err(OtterInstallFailed(env.pipInstallExit(uv))), venv.steps + [PipInstall])
  }

  /** `installOtter` moves forward through positions 6 to 9. */
  lemma InstallStageTrace(env: Env, uv: Path)
    ensures var r := InstallStage(env, uv);
      Ordered(r.steps) && Within(r.steps, 6, 9)
  {
    var venv := VenvStage(env, uv);
    VenvStageTrace(env, uv);
    if venv.result.Ok? {
      if venv.steps != [] {
        WithinAt(venv.steps, 6, 8, |venv.steps| - 1);
      }
      OrderedConcat(venv.steps, [PipInstall]);
      WithinWiden(venv.steps, 6, 8, 6, 9);
      WithinConcat(venv.steps, [PipInstall], 6, 9);
    } else {
      WithinWiden(venv.steps, 6, 8, 6, 9);
    }
  }

  /** `uv pip install` runs exactly when the venv step succeeded, and
      `installOtter` succeeds exactly when both steps do; each failure keeps
      its own reason; and the trace is the venv step's own trace, followed by
      `uv pip install` when the venv step succeeded. */
  lemma InstallStageSpec(env: Env, uv: Path)
    ensures var r := InstallStage(env, uv);
      PipInstall in r.steps <==> VenvStage(env, uv).result.Ok?
    ensures var r := InstallStage(env, uv);
      r.result.Ok? <==> VenvStage(env, uv).result.Ok? && env.pipInstallExit(uv) == Some(0)
    ensures var r := InstallStage(env, uv);
      r.result.Err? && PipInstall in r.steps ==> r.result.error == OtterInstallFailed(env.pipInstallExit(uv))
    ensures var r := InstallStage(env, uv);
      r.result.Err? && PipInstall !in r.steps ==> r.result.error == VenvCreationFailed
    ensures var r := InstallStage(env, uv); var v := VenvStage(env, uv);
      r.steps == v.steps + (if v.result.Ok? then [PipInstall] else [])
  {
    var venv := VenvStage(env, uv);
    VenvStageTrace(env, uv);
    VenvStageSpec(env, uv);
    NotWithin(venv.steps, 6, 8, PipInstall);
  }

  /** The venv step of `installOtter`. */
  method CreateVenv(env: Env, uv: Path) returns (r: Stage<()>)
    ensures r == VenvStage(env, uv)
  {
    var steps: seq<Step> := [];
    if !env.fileExists(VenvDir(env.home)) {
      steps := steps + [MakeHome, VenvQuoted];
      var result := env.venvQuoted(uv);
      if result.None? {
        steps := steps + [VenvArgv];
        var r2 := env.venvArgv(uv);
        if r2.None? {
          return Stage(Err(VenvCreationFailed), steps);
        }
      }
    }
    return Stage(Ok(()), steps);
  }

  /** `installOtter`: create the venv if needed, then install otter-ml. */
  method InstallOtter(env: Env, uv: Path) returns (r: Stage<()>)
    ensures r == InstallStage(env, uv)
  {
    r := CreateVenv(env, uv);
    if r.result.Err? {
      return;
    }
    var steps := r.steps + [PipInstall];
    var code := env.pipInstallExit(uv);
    if code == Some(0) {
      r := Stage(Ok(()), steps);
    } else {
      r := Stage(Err(OtterInstallFailed(code)), steps);
    }
  }

  // ---------------------------------------------------------------------
  // checkAndInstall

  /** Traces of the install path: ordered, within the given positions, and
      announcing "Ready" exactly when the binary was installed. */
  predicate Settles(r: Run, lo: nat) {
    && !r.outcome.Found?
    && Ordered(r.trace) && Within(r.trace, lo, 11)
    && (AnnounceReady in r.trace <==> r.outcome.Installed?)
  }

  /** What the install path promises about the binary it reports. */
  predicate InstalledBinary(env: Env, r: Run) {
    r.outcome.Installed? ==>
      r.outcome.path == OtterBin(env.home, env.isWindows) && env.existsAfterInstall(r.outcome.path)
  }

  /** The end of `checkAndInstall` once uv is known: `installOtter`, the
      check that `OTTER_BIN` now exists, and "Ready". */
  function AfterUv(env: Env, uv: Path): Run {
    var bin := OtterBin(env.home, env.isWindows);
    var ins := InstallStage(env, uv);
    if ins.result.Err? then Run(Fatal(ins.result.error), ins.steps)
    else if !env.existsAfterInstall(bin) then Run(Fatal(BinaryMissing), ins.steps + [CheckBinary])
    else Run(Installed(bin), ins.steps + [CheckBinary, AnnounceReady])
  }

  /** Once uv is known, the run settles, and a reported binary is `OTTER_BIN`
      and exists. */
  lemma AfterUvSettles(env: Env, uv: Path)
    ensures Settles(AfterUv(env, uv), 6) && InstalledBinary(env, AfterUv(env, uv))
  {
    var bin := OtterBin(env.home, env.isWindows);
    var ins := InstallStage(env, uv);
    InstallStageTrace(env, uv);
    NotWithin(ins.steps, 6, 9, AnnounceReady);
    WithinWiden(ins.steps, 6, 9, 6, 11);
    if ins.result.Ok? {
      var checks := if env.existsAfterInstall(bin) then [CheckBinary, AnnounceReady] else [CheckBinary];
      if ins.steps != [] {
        WithinAt(ins.steps, 6, 9, |ins.steps| - 1);
      }
      OrderedConcat(ins.steps, checks);
      WithinConcat(ins.steps, checks, 6, 11);
      assert AfterUv(env, uv).trace == ins.steps + checks;
    }
  }

  /** The part of `checkAndInstall` after the Python check: resolve uv,
      then go on as AfterUv. */
  function AfterPython(env: Env): Run {
    var uv := UvStage(env);
    if uv.result.Err? then Run(Fatal(uv.result.error), uv.steps)
    else
      var rest := AfterUv(env, uv.result.value);
      Run(rest.outcome, uv.steps + rest.trace)
  }

  /** After the Python check, the run starts with `findUv` and settles. */
  lemma AfterPythonSettles(env: Env)
    ensures var r := AfterPython(env);
      Settles(r, 3) && InstalledBinary(env, r) && r.trace != [] && r.trace[0] == CheckUv
  {
    var uv := UvStage(env);
    UvStageTrace(env);
    NotWithin(uv.steps, 3, 5, AnnounceReady);
    WithinWiden(uv.steps, 3, 5, 3, 11);
    if uv.result.Ok? {
      var rest := AfterUv(env, uv.result.value);
      AfterUvSettles(env, uv.result.value);
      if rest.trace != [] {
        WithinAt(uv.steps, 3, 5, |uv.steps| - 1);
        WithinAt(rest.trace, 6, 11, 0);
      }
      OrderedConcat(uv.steps, rest.trace);
      WithinWiden(rest.trace, 6, 11, 3, 11);
      WithinConcat(uv.steps, rest.trace, 3, 11);
    }
  }

  /** The install path of `checkAndInstall`, once both fast paths have
      failed: Python, then uv, then `installOtter`, then the binary check. */
  function InstallPath(env: Env): Run {
    var probed := [CheckVenvBinary, CheckPathOtter, CheckPython];
    if PythonChoice(env.probe).None? then Run(Fatal(PythonMissing), probed)
    else
      var rest := AfterPython(env);
      Run(rest.outcome, probed + rest.trace)
  }

  /** The install path starts with the three checks and settles. */
  lemma InstallPathSettles(env: Env)
    ensures var r := InstallPath(env);
      Settles(r, 0) && InstalledBinary(env, r)
      && |r.trace| >= 3 && r.trace[..3] == [CheckVenvBinary, CheckPathOtter, CheckPython]
  {
    var probed := [CheckVenvBinary, CheckPathOtter, CheckPython];
    if PythonChoice(env.probe).Some? {
      var rest := AfterPython(env);
      AfterPythonSettles(env);
      OrderedConcat(probed, rest.trace);
      WithinWiden(rest.trace, 3, 11, 0, 11);
      WithinConcat(probed, rest.trace, 0, 11);
      assert (probed + rest.trace)[..3] == probed;
    }
  }

  /** `checkAndInstall`, as a specification. */
  function Bootstrap(env: Env): Run {
    var bin := OtterBin(env.home, env.isWindows);
    if FastPathVenv(env) then Run(Found(bin), [CheckVenvBinary])
    else if FastPathOnPath(env) then Run(Found([env.whichOtter.value]), [CheckVenvBinary, CheckPathOtter])
    else InstallPath(env)
  }

  /** A fast path is taken exactly when one of the existing binaries
      answers, and then it reports that binary and nothing is installed;
      the venv binary is tried first, the `otter` on PATH only after it; "Ready" is announced exactly
      when the install path installed the binary, which is then `OTTER_BIN`
      and exists; the stages never go back. */
  lemma BootstrapSpec(env: Env)
    ensures var r := Bootstrap(env);
      r.outcome.Found? <==> FastPathVenv(env) || FastPathOnPath(env)
    ensures var r := Bootstrap(env);
      r.outcome.Found? ==> forall i :: 0 <= i < |r.trace| ==> Rank(r.trace[i]) <= 1 && !InstallWork(r.trace[i])
    ensures var r := Bootstrap(env);
      r.outcome.Found? ==> (env.probe(r.outcome.path).Some?
        && (r.outcome.path == OtterBin(env.home, env.isWindows)
            || (env.whichOtter.Some? && r.outcome.path == [env.whichOtter.value])))
    ensures FastPathVenv(env) ==>
      Bootstrap(env) == Run(Found(OtterBin(env.home, env.isWindows)), [CheckVenvBinary])
    ensures !FastPathVenv(env) && FastPathOnPath(env) ==>
      Bootstrap(env) == Run(Found([env.whichOtter.value]), [CheckVenvBinary, CheckPathOtter])
    ensures var r := Bootstrap(env);
      AnnounceReady in r.trace <==> r.outcome.Installed?
    ensures InstalledBinary(env, Bootstrap(env))
    ensures Ordered(Bootstrap(env).trace)
  {
    if !FastPathVenv(env) && !FastPathOnPath(env) {
      InstallPathSettles(env);
    }
  }

  /** No stage of a run happens twice, and no stage comes after a later one
      of the state machine: uv is installed at most once, and `findUv` runs
      again only after the installer. */
  lemma StagesNeverRepeat(env: Env)
    ensures var t := Bootstrap(env).trace;
      forall i, j :: 0 <= i < j < |t| ==> Rank(t[i]) < Rank(t[j])
  {
    var t := Bootstrap(env).trace;
    BootstrapSpec(env);
    forall i, j | 0 <= i < j < |t|
      ensures Rank(t[i]) < Rank(t[j])
    {
      OrderedPrecedes(t, i, j);
    }
  }

  /** Past the uv stage, `OTTER_HOME` is created only when `VENV_DIR` is
      absent, the argument-list form of `uv venv` runs only after the shell
      form failed, and the uv installer does not run. */
  lemma AfterUvSteps(env: Env, uv: Path)
    ensures MakeHome in AfterUv(env, uv).trace ==> !env.fileExists(VenvDir(env.home))
    ensures VenvArgv in AfterUv(env, uv).trace ==> env.venvQuoted(uv).None?
    ensures InstallUv !in AfterUv(env, uv).trace
  {
    var venv := VenvStage(env, uv);
    var ins := InstallStage(env, uv);
    var rest := AfterUv(env, uv);
    AfterUvSettles(env, uv);
    NotWithin(rest.trace, 6, 11, InstallUv);
    InstallStageSpec(env, uv);
    VenvStageSpec(env, uv);
    var tail := if venv.result.Ok? then [PipInstall] else [];
    assert ins.steps == venv.steps + tail;
    assert exists checks :: rest.trace == ins.steps + checks && MakeHome !in checks && VenvArgv !in checks;
    assert MakeHome !in tail && VenvArgv !in tail;
  }

  /** After the Python check, the same holds, and the uv installer runs
      exactly when the first `findUv` finds nothing. */
  lemma AfterPythonSteps(env: Env)
    ensures MakeHome in AfterPython(env).trace ==> !env.fileExists(VenvDir(env.home))
    ensures VenvArgv in AfterPython(env).trace ==>
      UvStage(env).result.Ok? && env.venvQuoted(UvStage(env).result.value).None?
    ensures InstallUv in AfterPython(env).trace <==> UvChoice(env.home, env.isWindows, env.probe).None?
  {
    var uv := UvStage(env);
    UvStageSpec(env);
    UvStageTrace(env);
    NotWithin(uv.steps, 3, 5, MakeHome);
    NotWithin(uv.steps, 3, 5, VenvArgv);
    if uv.result.Ok? {
      AfterUvSteps(env, uv.result.value);
      assert AfterPython(env).trace == uv.steps + AfterUv(env, uv.result.value).trace;
    }
  }

  /** On the install path, the same holds, and the uv installer runs
      exactly when Python is found and the first `findUv` finds nothing. */
  lemma InstallPathSteps(env: Env)
    ensures MakeHome in InstallPath(env).trace ==> !env.fileExists(VenvDir(env.home))
    ensures VenvArgv in InstallPath(env).trace ==>
      UvStage(env).result.Ok? && env.venvQuoted(UvStage(env).result.value).None?
    ensures InstallUv in InstallPath(env).trace <==>
      PythonChoice(env.probe).Some? && UvChoice(env.home, env.isWindows, env.probe).None?
  {
    if PythonChoice(env.probe).Some? {
      AfterPythonSteps(env);
      assert InstallPath(env).trace == [CheckVenvBinary, CheckPathOtter, CheckPython] + AfterPython(env).trace;
    }
  }

  /** The promises of the uv stage and the venv step hold for the whole
      run: `OTTER_HOME` is created only when `VENV_DIR` is absent, the
      argument-list form of `uv venv` runs only after the shell form failed
      with the uv that was found, and the uv installer runs exactly when the
      install path is taken, Python is found and the first `findUv` finds
      nothing. */
  lemma BootstrapInstallSteps(env: Env)
    ensures MakeHome in Bootstrap(env).trace ==> !env.fileExists(VenvDir(env.home))
    ensures VenvArgv in Bootstrap(env).trace ==>
      UvStage(env).result.Ok? && env.venvQuoted(UvStage(env).result.value).None?
    ensures InstallUv in Bootstrap(env).trace <==>
      && !FastPathVenv(env) && !FastPathOnPath(env)
      && PythonChoice(env.probe).Some?
      && UvChoice(env.home, env.isWindows, env.probe).None?
  {
    if !FastPathVenv(env) && !FastPathOnPath(env) {
      InstallPathSteps(env);
    }
  }

  /** The binary is installed exactly when no fast path applies and every
      stage of the install path succeeds. */
  lemma BootstrapInstalledIff(env: Env)
    ensures Bootstrap(env).outcome.Installed? <==>
      && !FastPathVenv(env) && !FastPathOnPath(env)
      && PythonChoice(env.probe).Some?
      && UvStage(env).result.Ok?
      && InstallStage(env, UvStage(env).result.value).result.Ok?
      && env.existsAfterInstall(OtterBin(env.home, env.isWindows))
  {
  }

  /** The process exits with status 1 exactly when the run neither found a
      binary nor announced "Ready"; a failure never announces "Ready". */
  lemma BootstrapFailure(env: Env)
    ensures var r := Bootstrap(env);
      ExitStatus(r.outcome) == Some(1) <==> !r.outcome.Found? && AnnounceReady !in r.trace
    ensures var r := Bootstrap(env);
      r.outcome.Fatal? ==> AnnounceReady !in r.trace
  {
    BootstrapSpec(env);
  }

  /** "Python 3.10+ is required" is reported exactly when no fast path
      applies and neither interpreter passes the version gate: no later
      stage fails with that reason. */
  lemma PythonMissingIff(env: Env)
    ensures Bootstrap(env).outcome == Fatal(PythonMissing) <==>
      !FastPathVenv(env) && !FastPathOnPath(env) && PythonChoice(env.probe).None?
  {
    if !FastPathVenv(env) && !FastPathOnPath(env) && PythonChoice(env.probe).Some? {
      var uv := UvStage(env);
      UvStageSpec(env);
      if uv.result.Ok? {
        InstallStageSpec(env, uv.result.value);
        assert AfterPython(env).outcome == AfterUv(env, uv.result.value).outcome;
      }
      assert Bootstrap(env).outcome == AfterPython(env).outcome;
    }
  }

  /** Installing is done once: when a run installed the binary, a later run
      on the host it left, whose probe of `OTTER_BIN` answers, takes the
      first fast path and does no install work. */
  lemma SecondRunDoesNoWork(env: Env, next: Env)
    requires Bootstrap(env).outcome.Installed?
    requires next.home == env.home && next.isWindows == env.isWindows
    requires next.fileExists == env.existsAfterInstall
    requires next.probe(OtterBin(env.home, env.isWindows)).Some?
    ensures Bootstrap(next) == Run(Found(OtterBin(env.home, env.isWindows)), [CheckVenvBinary])
    ensures forall i :: 0 <= i < |Bootstrap(next).trace| ==> !InstallWork(Bootstrap(next).trace[i])
  {
    BootstrapSpec(env);
  }

  // The methods below run the stages in the source's statement order,
  // reassigning the trace and `uvPath` as `checkAndInstall` does; each is
  // proved equal to the stage function above that specifies it.

  /** The uv part of `checkAndInstall`: `findUv`; if that finds nothing,
      `installUv` and, when the installer exits with 0, `findUv` again. */
  method ResolveUv(env: Env) returns (r: Stage<Path>)
    ensures r == UvStage(env)
  {
    var steps := [CheckUv];
    var uvPath := FindUv(env.home, env.isWindows, env.probe);
    if uvPath.None? {
      steps := steps + [InstallUv];
      if env.uvInstallExit != Some(0) {
        return Stage(Err(UvInstallFailed(env.uvInstallExit)), steps);
      }
      steps := steps + [RecheckUv];
      uvPath := FindUv(env.home, env.isWindows, env.probeAfterUvInstall);
      if uvPath.None? {
        return Stage(Err(UvMissingAfterInstall), steps);
      }
    }
    return Stage(Ok(uvPath.value), steps);
  }

  /** The end of `checkAndInstall` once uv is known: `installOtter`, the
      existence check on `OTTER_BIN`, and "Ready". */
  method FinishInstall(env: Env, uv: Path) returns (run: Run)
    ensures run == AfterUv(env, uv)
  {
    var bin := OtterBin(env.home, env.isWindows);
    var installed := InstallOtter(env, uv);
    if installed.result.Err? {
      return Run(Fatal(installed.result.error), installed.steps);
    }
    var trace := installed.steps + [CheckBinary];
    if !env.existsAfterInstall(bin) {
      return Run(Fatal(BinaryMissing), trace);
    }
    trace := trace + [AnnounceReady];
    assert trace == installed.steps + [CheckBinary, AnnounceReady];
    return Run(Installed(bin), trace);
  }

  /** `checkAndInstall`, step by step. */
  method CheckAndInstall(env: Env) returns (run: Run)
    ensures run == Bootstrap(env)
  {
    var bin := OtterBin(env.home, env.isWindows);
    var trace := [CheckVenvBinary];
    if env.fileExists(bin) {
      var out := env.probe(bin);
      if out.Some? {
        return Run(Found(bin), trace);
      }
    }
    trace := trace + [CheckPathOtter];
    if env.whichOtter.Some? {
      var otterPath := env.whichOtter.value;
      if otterPath != "" {
        var out := env.probe([otterPath]);
        if out.Some? {
          return Run(Found([otterPath]), trace);
        }
      }
    }
    run := SetUp(env);
  }

  /** The install path of `checkAndInstall` ("Setting up Otter for the
      first time"), once both fast paths have failed. */
  method SetUp(env: Env) returns (run: Run)
    ensures run == InstallPath(env)
  {
    var trace := [CheckVenvBinary, CheckPathOtter, CheckPython];
    var python := FindPython(env.probe);
    if python.None? {
      return Run(Fatal(PythonMissing), trace);
    }
    var uv := ResolveUv(env);
    if uv.result.Err? {
      return Run(Fatal(uv.result.error), trace + uv.steps);
    }
    var rest := FinishInstall(env, uv.result.value);
    assert trace + (uv.steps + rest.trace) == trace + uv.steps + rest.trace;
    return Run(rest.outcome, trace + uv.steps + rest.trace);
  }
}
