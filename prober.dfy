/** The environment probes of src/install.js: `findPython` and `findUv`.

    Both walk a fixed, ordered list of candidates and stop at the first one
    whose `--version` probe passes.  The probe itself (`execSync` or
    `execFileSync` of `<candidate> --version`, trimmed, `null` on any failure)
    is an oracle from the candidate to its output. */
module Prober {
  import opened Wrappers
  import opened Version

  /** A filesystem path as its sequence of segments (`path.join` appends
      segments); a bare command name such as `uv` is a one-segment path. */
  type Path = seq<string>

  /** The trimmed output of `<candidate> --version`, or `None` when the
      child process could not be run or exited non-zero. */
  type VersionProbe = Path -> Option<string>

  // ---------------------------------------------------------------------
  // Ordered first-success search

  /** Index of the first element of `xs` satisfying `ok`, or `|xs|` when none
      does: what a `for ... of` loop with an early `return` visits. */
  function FirstIndex<T>(xs: seq<T>, ok: T -> bool): (k: nat)
    ensures k <= |xs|
    ensures k < |xs| ==> ok(xs[k])
    ensures forall j :: 0 <= j < k ==> !ok(xs[j])
    decreases |xs|
  {
    if xs == [] || ok(xs[0]) then 0 else 1 + FirstIndex(xs[1..], ok)
  }

  /** The two facts FirstIndex promises determine it. */
  lemma FirstIndexUnique<T>(xs: seq<T>, ok: T -> bool, k: nat)
    requires k <= |xs|
    requires k < |xs| ==> ok(xs[k])
    requires forall j :: 0 <= j < k ==> !ok(xs[j])
    ensures FirstIndex(xs, ok) == k
  {
  }

  // ---------------------------------------------------------------------
  // findPython

  /** The interpreter commands tried, in order of preference. */
  const PYTHON_COMMANDS: seq<string> := ["python3", "python"]

  /** The version gate: Python 3, minor version at least 10. */
  predicate Supported(v: PythonVersion) {
    v.major == 3 && v.minor >= 10
  }

  /** `ver && ver.major === 3 && ver.minor >= 10` on a probe's output. */
  predicate Accepts(out: Option<string>) {
    var v := Parse(out);
    v.Some? && Supported(v.value)
  }

  /** What `findPython` returns: the command and its version as text. */
  datatype Python = Python(cmd: string, version: string)

  /** The interpreter `findPython` settles on, as a specification. */
  function PythonChoice(probe: VersionProbe): Option<Python> {
    var k := FirstIndex(PYTHON_COMMANDS, (cmd: string) => Accepts(probe([cmd])));
    if k == |PYTHON_COMMANDS| then None
    else
      var cmd := PYTHON_COMMANDS[k];
      assert Accepts(probe([cmd]));
      Some(Python(cmd, FormatVersion(Parse(probe([cmd])).value)))
  }

  /** `python3` is preferred to `python`; nothing is found only when neither
      passes the gate; and the reported version is the one the chosen
      command printed. */
  lemma PythonChoicePreference(probe: VersionProbe)
    ensures Accepts(probe(["python3"])) ==> PythonChoice(probe) == Some(Python("python3", FormatVersion(Parse(probe(["python3"])).value)))
    ensures !Accepts(probe(["python3"])) && Accepts(probe(["python"])) ==> PythonChoice(probe) == Some(Python("python", FormatVersion(Parse(probe(["python"])).value)))
    ensures PythonChoice(probe).None? <==> !Accepts(probe(["python3"])) && !Accepts(probe(["python"]))
  {
    var ok := (cmd: string) => Accepts(probe([cmd]));
    var k := FirstIndex(PYTHON_COMMANDS, ok);
    assert ok(PYTHON_COMMANDS[0]) == Accepts(probe(["python3"]));
    assert ok(PYTHON_COMMANDS[1]) == Accepts(probe(["python"]));
    if k < |PYTHON_COMMANDS| {
      assert Accepts(probe([PYTHON_COMMANDS[k]]));
    }
  }

  /** `findPython`: probe each command in order, return the first supported. */
  method FindPython(probe: VersionProbe) returns (python: Option<Python>)
    ensures python == PythonChoice(probe)
  {
    var i := 0;
    while i < |PYTHON_COMMANDS|
      invariant 0 <= i <= |PYTHON_COMMANDS|
      invariant forall j :: 0 <= j < i ==> !Accepts(probe([PYTHON_COMMANDS[j]]))
    {
      var cmd := PYTHON_COMMANDS[i];
      var ver := Parse(probe([cmd]));
      if ver.Some? && ver.value.major == 3 && ver.value.minor >= 10 {
        FirstIndexUnique(PYTHON_COMMANDS, (c: string) => Accepts(probe([c])), i);
        assert ver == Parse(probe([PYTHON_COMMANDS[i]]));
        return Some(Python(cmd, FormatVersion(ver.value)));
      }
      i := i + 1;
    }
    FirstIndexUnique(PYTHON_COMMANDS, (c: string) => Accepts(probe([c])), i);
    return None;
  }

  /** A banner is accepted exactly when the version it reports passes the
      gate. */
  lemma BannerAccepted(v: PythonVersion)
    ensures Accepts(Some(PREFIX + FormatVersion(v))) <==> Supported(v)
  {
    ParseFormatRoundTrip(v);
  }

  /** Version gate examples: 3.9.0 and 4.0.0 are turned away, 3.10.4 is taken. */
  lemma VersionGateExamples()
    ensures !Accepts(Some("Python 3.9.0"))
    ensures Accepts(Some("Python 3.10.4"))
    ensures !Accepts(Some("Python 4.0.0"))
  {
    var v390, v3104, v400 := PythonVersion(3, 9, 0), PythonVersion(3, 10, 4), PythonVersion(4, 0, 0);
    assert NatToString(10) == "10";
    assert PREFIX + FormatVersion(v390) == "Python 3.9.0";
    assert PREFIX + FormatVersion(v3104) == "Python 3.10.4";
    assert PREFIX + FormatVersion(v400) == "Python 4.0.0";
    BannerAccepted(v390);
    BannerAccepted(v3104);
    BannerAccepted(v400);
  }

  // ---------------------------------------------------------------------
  // findUv

  /** `if (out)`: a probe passes only with a non-empty output. */
  predicate NonEmpty(out: Option<string>) {
    out.Some? && out.value != ""
  }

  /** The places `findUv` looks for uv, in order: the bare command, then
      `~/.local/bin/uv` and `~/.cargo/bin/uv`, and on Windows also
      `~/.local/bin/uv.exe` and `~/AppData/Local/uv/uv.exe`. */
  function UvCandidates(home: Path, isWindows: bool): (paths: seq<Path>)
  {
    [["uv"], home + [".local", "bin", "uv"], home + [".cargo", "bin", "uv"]]
    + if isWindows then [home + [".local", "bin", "uv.exe"], home + ["AppData", "Local", "uv", "uv.exe"]] else []
  }

  /** The uv executable `findUv` settles on, as a specification. */
  function UvChoice(home: Path, isWindows: bool, probe: VersionProbe): Option<Path> {
    var paths := UvCandidates(home, isWindows);
    var k := FirstIndex(paths, (p: Path) => NonEmpty(probe(p)));
    if k == |paths| then None else Some(paths[k])
  }

  /** `findUv` returns the first candidate whose probe prints something, and
      nothing exactly when no candidate does. */
  lemma UvChoiceFirstSuccess(home: Path, isWindows: bool, probe: VersionProbe)
    ensures var paths := UvCandidates(home, isWindows);
      var r := UvChoice(home, isWindows, probe);
      r.Some? ==> exists k :: (0 <= k < |paths| && paths[k] == r.value && NonEmpty(probe(paths[k]))
        && forall j :: 0 <= j < k ==> !NonEmpty(probe(paths[j])))
    ensures var paths := UvCandidates(home, isWindows);
      UvChoice(home, isWindows, probe).None? <==> forall k :: 0 <= k < |paths| ==> !NonEmpty(probe(paths[k]))
  {
    var paths := UvCandidates(home, isWindows);
    var k := FirstIndex(paths, (p: Path) => NonEmpty(probe(p)));
    if k < |paths| {
      assert paths[k] == UvChoice(home, isWindows, probe).value;
    }
  }

  /** `findUv`: build the candidate list (two extra entries on Windows),
      then return the first whose version output is non-empty. */
  method FindUv(home: Path, isWindows: bool, probe: VersionProbe) returns (uv: Option<Path>)
    ensures uv == UvChoice(home, isWindows, probe)
  {
    var uvPaths := [["uv"], home + [".local", "bin", "uv"], home + [".cargo", "bin", "uv"]];
    if isWindows {
      uvPaths := uvPaths + [home + [".local", "bin", "uv.exe"]];
      uvPaths := uvPaths + [home + ["AppData", "Local", "uv", "uv.exe"]];
    }
    assert uvPaths == UvCandidates(home, isWindows);
    var i := 0;
    while i < |uvPaths|
      invariant 0 <= i <= |uvPaths|
      invariant forall j :: 0 <= j < i ==> !NonEmpty(probe(uvPaths[j]))
    {
      var out := probe(uvPaths[i]);
      if out.Some? && out.value != "" {
        FirstIndexUnique(uvPaths, (p: Path) => NonEmpty(probe(p)), i);
        return Some(uvPaths[i]);
      }
      i := i + 1;
    }
    FirstIndexUnique(uvPaths, (p: Path) => NonEmpty(probe(p)), i);
    return None;
  }
}
