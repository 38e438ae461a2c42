# Otter bootstrap: the install-state decision procedure

The `otter` npm launcher makes sure a working `otter` binary exists before
it hands control to it. `checkAndInstall` in `src/install.js` decides what
to do. It has two fast paths:

- the binary in Otter's own virtual environment (`~/.otter/venv`) answers
  `--version`;
- an `otter` found on `PATH` resolves to a non-empty path, and that path
  answers `--version`.

If neither applies, it sets Otter up for the first time:

1. find a Python 3.10+ interpreter (`findPython`, with `parsePythonVersion`
   reading the `Python X.Y.Z` banner);
2. find `uv` (`findUv`), and if it is missing, run the uv installer and look
   again;
3. create the venv if it is absent (shell form first, then argument-list
   form), then `uv pip install` otter-ml (`installOtter`);
4. check that the binary now exists, and announce "Ready".

Every failure after the fast paths prints a diagnostic and exits with
status 1.

This project models that procedure in Dafny. It has four modules:

- `Wrappers` (`wrappers.dfy`): `Option` and `Result`.
- `Version` (`version.dfy`): `parsePythonVersion` and the `major.minor.patch`
  text. The regular expression `/Python (\d+)\.(\d+)\.(\d+)/` is modelled two
  ways:
  - operationally: `DigitRun` and `DottedRun` scan greedy digit runs,
    `GroupLengths` and `MatchAt` match at one position, and `LeftmostMatch`
    tries positions from the left;
  - declaratively: `RegexMatch` and `GreedyMatch` say which substrings the
    pattern can match.

  Lemmas prove the two agree.
- `Prober` (`prober.dfy`):
  - `findPython` and `findUv`, as loops (`FindPython`, `FindUv`) proved equal
    to first-success specifications (`PythonChoice`, `UvChoice`);
  - the version gate.
- `Install` (`install.dfy`): `OTTER_BIN`, `installOtter` and
  `checkAndInstall`.
  - The host is an immutable record of oracles (`Env`): file existence,
    `--version` outputs, and child exit codes. A step that changes the host
    gets a second oracle for the state it leaves.
  - `Bootstrap` is the procedure as a function from the host to an outcome
    (`Found(path)`, `Installed(path)` or `Fatal(reason)`) and a trace of the
    stages it went through.
  - `CheckAndInstall` and its helper methods run the same procedure step by
    step and are proved equal to it.

Paths are sequences of segments, as `path.join` builds them. A bare command
such as `uv` is the one-segment path `["uv"]`.

Two details of the source shape what the model promises:

- The fast-path probes accept any output that is not `null`, even an empty
  one (src/install.js:134 and 142; `FastPathVenv`, `FastPathOnPath`), while
  `findUv` needs non-empty output (`if (out)`, `NonEmpty`).
- After the install the source only checks that `OTTER_BIN` exists
  (src/install.js:192), not that it answers `--version`, so
  `SecondRunDoesNoWork` has to assume that the probe answers.

## Model

| member | source | states |
|---|---|---|
| Version.NatToString | src/install.js:53 | a natural prints as a canonical decimal numeral: non-empty, all digits, no leading zero, and "0" only for zero |
| Version.DecimalOfNatToString | src/install.js:45 | `parseInt` of the printed numeral gives back the number |
| Version.NatToStringOfDecimal | src/install.js:45 | a canonical numeral read by `parseInt` prints back as itself |
| Version.Decimal | src/install.js:45 | `parseInt` of a string of digits, read left to right; inverse of NatToString on canonical numerals (DecimalOfNatToString, NatToStringOfDecimal) |
| Version.DigitRun | src/install.js:43 | the greedy `\d+` run at a position: every character in it is a digit, and the character after it is not (or the text ends) |
| Version.DottedRun | src/install.js:43 | `(\d+)\.` finds a non-empty digit run followed by a dot |
| Version.GroupLengths | src/install.js:43 | whatever the scan at a position finds is a match of the pattern there, with the last group greedy |
| Version.MatchAt | src/install.js:43-45 | the pattern anchored at one position, with its groups converted; sound and complete against RegexMatch by MatchAtSound, MatchAtComplete and MatchAtGreedy |
| Version.GroupLengthsComplete | src/install.js:43 | wherever the pattern can match, the scan finds the first two groups of that match and a last group that covers it |
| Version.GroupLengthsGreedy | src/install.js:43 | at a greedy match, the scan reports exactly its three group lengths |
| Version.MatchAtSound | src/install.js:43-45 | what the anchored match reports are the converted groups of a greedy match of the pattern |
| Version.MatchAtComplete | src/install.js:43 | wherever the pattern can match, the anchored match succeeds |
| Version.MatchAtGreedy | src/install.js:43-45 | at a greedy match, the anchored match reports that match's three groups, converted |
| Version.LeftmostMatch | src/install.js:43 | the first position at or after the start where the pattern matches, and no match before it; none means no match anywhere |
| Version.Parse | src/install.js:42-46 | `null`, and the empty string, parse to `null` |
| Version.ParseNoneIffNoMatch | src/install.js:43-44 | parsing fails exactly when the pattern occurs nowhere in the text |
| Version.ParseIsLeftmostGreedyMatch | src/install.js:43-45 | when the leftmost occurrence starts at `i`, the result is the three maximal digit runs there, read as naturals |
| Version.ParseFormatRoundTrip | src/install.js:42-46 | the banner `Python <major>.<minor>.<patch>` of any version parses back to that version |
| Version.FormatVersion | src/install.js:53 | the `${major}.${minor}.${patch}` text; parsed back by ParseFormatRoundTrip |
| Version.FormatVersionInjective | src/install.js:53 | different versions are reported as different `major.minor.patch` strings |
| Prober.FirstIndex | src/install.js:71-74 | the index where a `for ... of` loop with an early return stops: the first element that passes, with all earlier ones failing, or the end |
| Prober.PythonChoicePreference | src/install.js:49-56 | `python3` is preferred when it passes the gate; `python` is chosen only when `python3` fails and `python` passes; nothing is found exactly when neither passes; the reported version is the decimal text of the parsed banner |
| Prober.FindPython | src/install.js:48-57 | the loop over `python3`, `python` returns the first-success choice |
| Prober.BannerAccepted | src/install.js:52 | the banner of a version passes the gate exactly when the version is 3.x with x >= 10 |
| Prober.VersionGateExamples | src/install.js:52 | "Python 3.9.0" and "Python 4.0.0" are rejected, "Python 3.10.4" is accepted |
| Prober.UvChoiceFirstSuccess | src/install.js:61-75 | `findUv` returns the first candidate whose probe output is non-empty, with all earlier candidates failing; it returns nothing exactly when every candidate fails |
| Prober.UvCandidates | src/install.js:61-69 | `uv`, `~/.local/bin/uv`, `~/.cargo/bin/uv`, and on Windows also `~/.local/bin/uv.exe` and `~/AppData/Local/uv/uv.exe`, in that order |
| Prober.FindUv | src/install.js:59-76 | building the candidate list (two more entries on Windows) and looping over it returns the first-success choice |
| Install.OtterBin | src/install.js:11-13 | `OTTER_BIN` lies inside `~/.otter/venv` and ends in `Scripts/otter.exe` on Windows and `bin/otter` elsewhere |
| Install.OrderedPrecedes | src/install.js:130-200 | in an ordered trace, each stage comes strictly before every later one in the state machine |
| Install.UvStageTrace | src/install.js:160-179 | the uv stage starts with `findUv` and only moves forward |
| Install.UvStageSpec | src/install.js:160-179 | the installer runs exactly when the first `findUv` finds nothing; `findUv` runs again exactly when the installer exits with 0; the uv used is the one found by the last `findUv`; a non-zero exit and uv still missing are reported with different reasons; the stage succeeds exactly when the first `findUv` finds uv, or the installer exits with 0 and the second `findUv` finds it |
| Install.ResolveUv | src/install.js:160-179 | the uv part of `checkAndInstall`, run step by step, equals the uv stage specification |
| Install.VenvStageTrace | src/install.js:102-110 | the venv step only moves forward |
| Install.VenvStageSpec | src/install.js:102-109 | nothing happens when `VENV_DIR` exists; otherwise `OTTER_HOME` is created and the shell form runs; the argument-list form runs exactly when the shell form fails; the step fails exactly when both do, with "Failed to create virtual environment" |
| Install.CreateVenv | src/install.js:102-110 | the venv step, run step by step, equals its specification |
| Install.InstallStageTrace | src/install.js:100-128 | `installOtter` only moves forward |
| Install.InstallStageSpec | src/install.js:100-128 | `uv pip install` runs exactly when the venv step succeeded; `installOtter` succeeds exactly when both steps do and pip exits with 0; each failure keeps its own reason; the trace is exactly the venv step's trace, followed by `uv pip install` when the venv step succeeded |
| Install.InstallOtter | src/install.js:100-128 | `installOtter`, run step by step, equals its specification |
| Install.AfterUvSettles | src/install.js:181-199 | once uv is known, the run never goes back; it announces "Ready" exactly when it installed; and the binary it reports is `OTTER_BIN`, which exists after the install |
| Install.AfterUvSteps | src/install.js:100-128 | once uv is known, `OTTER_HOME` is created only when `VENV_DIR` is absent, the argument-list form of `uv venv` runs only after the shell form failed, and the uv installer does not run |
| Install.FinishInstall | src/install.js:181-199 | the end of `checkAndInstall`, run step by step, equals its specification |
| Install.AfterPythonSettles | src/install.js:160-199 | after the Python check the run starts with `findUv`, never goes back, and announces "Ready" exactly when it installed |
| Install.AfterPythonSteps | src/install.js:160-199 | after the Python check, the same venv promises hold, with the argument-list form tied to the uv that was found, and the uv installer runs exactly when the first `findUv` finds nothing |
| Install.InstallPathSettles | src/install.js:146-199 | the install path starts with the two fast-path checks and the Python check, never goes back, and announces "Ready" exactly when it installed `OTTER_BIN` |
| Install.InstallPathSteps | src/install.js:146-199 | on the install path, the same venv promises hold, and the uv installer runs exactly when Python is found and the first `findUv` finds nothing |
| Install.SetUp | src/install.js:146-199 | the install path, run step by step, equals its specification |
| Install.FastPathVenv | src/install.js:132-135 | `OTTER_BIN` exists and its `--version` probe is not `null` |
| Install.FastPathOnPath | src/install.js:138-144 | `command -v otter` succeeds with a non-empty path whose `--version` probe is not `null` |
| Install.Bootstrap | src/install.js:130-200 | `checkAndInstall` as a function from the host to its outcome and trace; its properties are BootstrapSpec, StagesNeverRepeat, BootstrapInstalledIff, BootstrapFailure, PythonMissingIff and SecondRunDoesNoWork |
| Install.BootstrapSpec | src/install.js:130-200 | a fast path is taken exactly when the venv binary or the `otter` on PATH answers; the venv binary is tried first and, when it answers, `OTTER_BIN` is returned after that one check; the PATH binary is returned only when the venv check failed; a fast path does no Python, uv or install step; "Ready" is announced exactly when the binary was installed; an installed binary is `OTTER_BIN` and exists; the stages never go back |
| Install.StagesNeverRepeat | src/install.js:130-200 | no stage of a run happens twice or after a later stage |
| Install.BootstrapInstallSteps | src/install.js:130-200 | in the whole run, `OTTER_HOME` is created only when `VENV_DIR` is absent, the argument-list form of `uv venv` runs only after the shell form failed with the uv found, and the uv installer runs exactly when no fast path applies, Python is found and the first `findUv` finds nothing |
| Install.BootstrapInstalledIff | src/install.js:151-199 | the binary is installed exactly when no fast path applies, Python is found, uv is found or installed, `installOtter` succeeds and `OTTER_BIN` exists afterwards |
| Install.BootstrapFailure | src/install.js:151-199 | the process exits with status 1 exactly when the run neither found a binary nor announced "Ready"; a failure never announces "Ready" |
| Install.PythonMissingIff | src/install.js:151-157 | "Python 3.10+ is required" is reported exactly when no fast path applies and neither interpreter passes the gate |
| Install.SecondRunDoesNoWork | src/install.js:132-135 | after a run that installed the binary, a later run on the host it left, whose probe of `OTTER_BIN` answers, returns `OTTER_BIN` from the first fast path and does no install work |
| Install.CheckAndInstall | src/install.js:130-200 | `checkAndInstall`, run step by step, equals the `Bootstrap` specification |

## Left out

- `bin/otter.js` is not part of this model. It forwards arguments and stdio to the binary and propagates its exit code. That is launcher glue over `child_process`.
- Child processes and the network are oracles in `Env`:
  - `execSync`, `execFileSync` and `spawn`;
  - the curl or PowerShell download of the uv installer;
  - the `git+https` pip install.

  Output is taken as already trimmed. A child that cannot be spawned, or that ends without an exit code, has exit `None`.
- `path.join` and `os.homedir` semantics are reduced to segment sequences. Shell quoting of paths (`"${uvPath}" venv "${VENV_DIR}"`) is not modelled: each form of the venv command is its own oracle.
- `commandExists('otter')` and the second `command -v otter` run are one oracle (`whichOtter`). The model assumes the two runs agree.
- The host state between steps is modelled coarsely:
  - the fast paths and the `VENV_DIR` check read the state before any install step;
  - the second `findUv` reads the state the uv installer left;
  - the final `existsSync(OTTER_BIN)` reads the state `uv pip install` left.

  The model assumes the uv installer does not create `VENV_DIR`.
- A throwing `mkdirSync` is not modelled. In the source it would surface as "Failed to install otter-ml".
- The `UV_INSTALL_DIR` override given to the uv installer is left out.
- Output text is left out: the progress text, the collected stderr in error messages, and the exact wording of diagnostics. Failures are the constructors of `Failure`, and only the presence of "Ready" is in the trace.
- Promises, `async`/`await` and event listeners are left out. The steps run in sequence, as `await` makes them.
- A child process that never ends is not modelled: the source sets no timeout on `execSync`/`execFileSync` (src/install.js:21, 29) or on the awaited `exit` events (src/install.js:92-95, 122-125), so such a run neither exits with 1 nor prints "Ready". Every oracle in `Env` answers, so `Bootstrap` always reaches an outcome, and BootstrapFailure's exit status holds only for runs that end.
- `parseInt` precision loss on very long digit strings is left out. Versions are unbounded naturals.
- Install.SecondRunDoesNoWork: assumes the next run's probe of `OTTER_BIN` answers, because the source checks only that the file exists after the install, not that it runs.
