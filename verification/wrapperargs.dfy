/** The lint wrapper's argument parser and the builder of its final arguments. */
module WrapperArgs {
  import opened Text

  datatype Flag = Manifest | Package | NoDeps | Library | Target | Fix

  /** What a lint argument means where no value is expected. */
  datatype Meaning = Expects(flag: Flag) | Sets(flag: Flag) | Plain

  /** The spellings the wrapper knows. */
  datatype Words = Words(
    separator: string, manifest: string, workspace: string, noDeps: string, allTargets: string,
    lint: string -> Meaning, target: string -> bool)

  datatype Parsed = Parsed(lint: seq<string>, cargo: seq<string>, flags: set<Flag>)

  datatype State = State(parsed: Parsed, after: bool, awaited: Option<Flag>)

  const NOTHING := Parsed([], [], {})
  const START := State(NOTHING, false, None)

  function LintArg(arg: string): Meaning {
    if arg == "--manifest-path" then Expects(Manifest)
    else if StartsWith(arg, "--manifest-path=") then Sets(Manifest)
    else if arg == "-p" || arg == "--package" then Expects(Package)
    else if StartsWith(arg, "--package=") then Sets(Package)
    else if arg == "--fix" then Sets(Fix)
    else if arg == "--workspace" then Sets(Package)
    else if arg == "--no-deps" then Sets(NoDeps)
    else if arg == "--lib" || arg == "--lib-path" then Expects(Library)
    else if StartsWith(arg, "--lib=") || StartsWith(arg, "--lib-path=") then Sets(Library)
    else Plain
  }

  function TargetArg(arg: string): bool {
    || arg == "--all-targets" || arg == "--lib" || arg == "--bins" || arg == "--tests"
    || arg == "--examples" || arg == "--benches" || arg == "--doc"
    || arg == "--bin" || arg == "--test" || arg == "--example" || arg == "--bench"
    || StartsWith(arg, "--bin=") || StartsWith(arg, "--test=")
    || StartsWith(arg, "--example=") || StartsWith(arg, "--bench=")
  }

  const WRAPPER := Words("--", "--manifest-path", "--workspace", "--no-deps", "--all-targets", LintArg, TargetArg)

  /** What the parser makes of the words the builder inserts. */
  predicate Consistent(w: Words) {
    && w.lint(w.manifest) == Expects(Manifest) && w.manifest != w.separator
    && w.lint(w.workspace) == Sets(Package) && w.workspace != w.separator
    && w.lint(w.noDeps) == Sets(NoDeps) && w.noDeps != w.separator
    && w.target(w.allTargets)
  }

  lemma WrapperConsistent()
    ensures Consistent(WRAPPER)
  {
    assert WRAPPER.manifest[0] == '-' && |WRAPPER.manifest| == 15;
    assert |WRAPPER.workspace| == 11 && WRAPPER.workspace[2] == 'w';
    assert |WRAPPER.noDeps| == 9 && WRAPPER.noDeps[2] == 'n';
    assert !StartsWith(WRAPPER.workspace, "--manifest-path=") && !StartsWith(WRAPPER.workspace, "--package=");
    assert !StartsWith(WRAPPER.noDeps, "--manifest-path=") && !StartsWith(WRAPPER.noDeps, "--package=");
  }

  // ---- the parser

  function Step(w: Words, s: State, arg: string): State {
    var p := s.parsed;
    if s.after then
      s.(parsed := p.(cargo := p.cargo + [arg], flags := p.flags + if w.target(arg) then {Target} else {}))
    else if arg == w.separator then s.(after := true)
    else
      var q := p.(lint := p.lint + [arg]);
      match s.awaited
      case Some(f) => State(q.(flags := q.flags + {f}), false, None)
      case None =>
        match w.lint(arg)
        case Expects(f) => State(q, false, Some(f))
        case Sets(f) => State(q.(flags := q.flags + {f}), false, None)
        case Plain => State(q, false, None)
  }

  function Run(w: Words, s: State, args: seq<string>): State {
    if args == [] then s
    else Step(w, Run(w, s, args[..|args| - 1]), args[|args| - 1])
  }

  method ParseWrapperArgs(w: Words, argv: seq<string>) returns (p: Parsed)
    ensures p == Run(w, START, argv).parsed
  {
    p := NOTHING;
    var after := false;
    var awaited: Option<Flag> := None;
    for i := 0 to |argv|
      invariant State(p, after, awaited) == Run(w, START, argv[..i])
    {
      assert argv[..i + 1][..i] == argv[..i];
      var arg := argv[i];
      if after {
        p := p.(cargo := p.cargo + [arg]);
        if w.target(arg) {
          p := p.(flags := p.flags + {Target});
        }
      } else if arg == w.separator {
        after := true;
      } else {
        p := p.(lint := p.lint + [arg]);
        if awaited.Some? {
          p := p.(flags := p.flags + {awaited.value});
          awaited := None;
        } else {
          match w.lint(arg) {
            case Expects(f) => awaited := Some(f);
            case Sets(f) => p := p.(flags := p.flags + {f});
            case Plain =>
          }
        }
      }
    }
    assert argv[..|argv|] == argv;
  }

  // ---- the builder

  function Inserted(w: Words, flags: set<Flag>, path: string): seq<string> {
    (if Manifest !in flags then [w.manifest, path] else [])
    + (if Package !in flags && Manifest !in flags then [w.workspace] else [])
    + (if NoDeps !in flags then [w.noDeps] else [])
  }

  function CargoArgs(w: Words, p: Parsed): seq<string> {
    if Fix !in p.flags && Target !in p.flags then p.cargo + [w.allTargets] else p.cargo
  }

  /** Lint arguments, and cargo arguments after a separator if there are any. */
  function Joined(w: Words, lint: seq<string>, cargo: seq<string>): seq<string> {
    if cargo == [] then lint else lint + ([w.separator] + cargo)
  }

  function Built(w: Words, p: Parsed, path: string): seq<string> {
    Joined(w, Inserted(w, p.flags, path) + p.lint, CargoArgs(w, p))
  }

  method BuildFinalArgs(w: Words, p: Parsed, path: string) returns (args: seq<string>)
    ensures args == Built(w, p, path)
  {
    args := [];
    var cargo := p.cargo;
    if Manifest !in p.flags {
      args := args + [w.manifest, path];
    }
    if Package !in p.flags && Manifest !in p.flags {
      args := args + [w.workspace];
    }
    if NoDeps !in p.flags {
      args := args + [w.noDeps];
    }
    if Fix !in p.flags && Target !in p.flags {
      cargo := cargo + [w.allTargets];
    }
    args := args + p.lint;
    if cargo != [] {
      args := args + ([w.separator] + cargo);
    }
  }

  // ---- what a parse depends on

  lemma {:induction false} RunConcat(w: Words, s: State, a: seq<string>, b: seq<string>)
    ensures Run(w, s, a + b) == Run(w, Run(w, s, a), b)
  {
    if b == [] {
      assert a + b == a;
    } else {
      var n := |b| - 1;
      RunConcat(w, s, a, b[..n]);
      assert (a + b)[..|a + b| - 1] == a + b[..n];
    }
  }

  function CargoFlags(w: Words, cargo: seq<string>): set<Flag> {
    if exists i | 0 <= i < |cargo| :: w.target(cargo[i]) then {Target} else {}
  }

  lemma {:induction false} CargoRun(w: Words, s: State, cargo: seq<string>)
    requires s.after
    ensures Run(w, s, cargo) ==
            s.(parsed := Parsed(s.parsed.lint, s.parsed.cargo + cargo, s.parsed.flags + CargoFlags(w, cargo)))
  {
    if cargo != [] {
      var n := |cargo| - 1;
      CargoRun(w, s, cargo[..n]);
      assert cargo == cargo[..n] + [cargo[n]];
      CargoFlagsLast(w, cargo[..n], cargo[n]);
    }
  }

  lemma CargoFlagsLast(w: Words, cargo: seq<string>, arg: string)
    ensures CargoFlags(w, cargo + [arg]) == CargoFlags(w, cargo) + if w.target(arg) then {Target} else {}
  {
    var more := cargo + [arg];
    if i :| 0 <= i < |cargo| && w.target(cargo[i]) {
      assert w.target(more[i]);
    }
    if w.target(arg) {
      assert w.target(more[|cargo|]);
    }
  }

  /** The state after these arguments from the start. */
  function Scan(w: Words, lint: seq<string>): State {
    Run(w, START, lint)
  }

  /** Lint arguments add the same flags whatever came before. */
  lemma {:induction false} LintRun(w: Words, p: Parsed, lint: seq<string>)
    requires w.separator !in lint
    ensures Run(w, State(p, false, None), lint) ==
            State(Parsed(p.lint + lint, p.cargo, p.flags + Scan(w, lint).parsed.flags), false, Scan(w, lint).awaited)
    ensures !Scan(w, lint).after
  {
    if lint != [] {
      var n := |lint| - 1;
      LintRun(w, p, lint[..n]);
      assert p.lint + lint == p.lint + lint[..n] + [lint[n]];
    }
  }

  /** The parts a parse is made of: no separator among the lint arguments, and the flags
      those two lists have by themselves. */
  ghost predicate Canonical(w: Words, p: Parsed) {
    w.separator !in p.lint && p.flags == Scan(w, p.lint).parsed.flags + CargoFlags(w, p.cargo)
  }

  /** Parsing the joined lists gives back exactly the lists and their own flags. */
  lemma ParseJoined(w: Words, lint: seq<string>, cargo: seq<string>)
    requires w.separator !in lint
    ensures var p := Run(w, START, Joined(w, lint, cargo)).parsed;
            p.lint == lint && p.cargo == cargo && Canonical(w, p)
  {
    LintRun(w, NOTHING, lint);
    assert NOTHING.lint + lint == lint;
    if cargo != [] {
      var s := Scan(w, lint);
      RunConcat(w, START, lint, [w.separator] + cargo);
      RunConcat(w, s, [w.separator], cargo);
      assert Run(w, s, []) == s;
      assert Run(w, s, [w.separator]) == s.(after := true);
      CargoRun(w, s.(after := true), cargo);
      assert s.parsed.cargo + cargo == cargo;
    }
  }

  lemma {:induction false} SplitAtSeparator(w: Words, argv: seq<string>) returns (lint: seq<string>, cargo: seq<string>)
    ensures w.separator !in lint
    ensures argv == lint || argv == lint + ([w.separator] + cargo)
    ensures argv == lint ==> cargo == []
  {
    if argv == [] {
      lint, cargo := [], [];
    } else if argv[0] == w.separator {
      lint, cargo := [], argv[1..];
      assert argv == [] + ([w.separator] + cargo);
    } else {
      var rest;
      rest, cargo := SplitAtSeparator(w, argv[1..]);
      lint := [argv[0]] + rest;
      assert argv == [argv[0]] + argv[1..];
      assert argv[1..] == rest ==> argv == lint;
      assert argv[1..] == rest + ([w.separator] + cargo) ==> argv == lint + ([w.separator] + cargo);
    }
  }

  lemma ParseIsCanonical(w: Words, argv: seq<string>)
    ensures Canonical(w, Run(w, START, argv).parsed)
  {
    var lint, cargo := SplitAtSeparator(w, argv);
    ParseJoined(w, lint, cargo);
    if argv != Joined(w, lint, cargo) {
      assert cargo == [] && argv == lint + ([w.separator] + []);
      assert argv == lint + [w.separator];
      assert (lint + [w.separator])[..|lint|] == lint;
      assert Run(w, START, argv) == Scan(w, lint).(after := true) by {
        LintRun(w, NOTHING, lint);
      }
    }
  }

  // ---- the fixpoint

  function PrefixFlags(flags: set<Flag>): set<Flag> {
    (if Manifest !in flags then {Manifest} else {})
    + (if Package !in flags && Manifest !in flags then {Package} else {})
    + (if NoDeps !in flags then {NoDeps} else {})
  }

  lemma RunOne(w: Words, s: State, arg: string)
    ensures Run(w, s, [arg]) == Step(w, s, arg)
  {
    assert [arg][..0] == [];
    assert Run(w, s, []) == s;
  }

  lemma ManifestRun(w: Words, path: string)
    requires Consistent(w) && path != w.separator
    ensures Scan(w, [w.manifest, path]) == State(Parsed([w.manifest, path], [], {Manifest}), false, None)
  {
    assert [w.manifest, path] == [w.manifest] + [path];
    RunConcat(w, START, [w.manifest], [path]);
    RunOne(w, START, w.manifest);
    RunOne(w, Step(w, START, w.manifest), path);
  }

  /** The state after lint arguments that leave no value awaited. */
  function Settled(lint: seq<string>, flags: set<Flag>): State {
    State(Parsed(lint, [], flags), false, None)
  }

  lemma SetsRun(w: Words, lint: seq<string>, flags: set<Flag>, arg: string, flag: Flag, more: bool)
    requires Scan(w, lint) == Settled(lint, flags) && arg != w.separator && w.lint(arg) == Sets(flag)
    ensures Scan(w, lint + if more then [arg] else []) ==
            Settled(lint + if more then [arg] else [], flags + if more then {flag} else {})
  {
    if more {
      RunConcat(w, START, lint, [arg]);
      RunOne(w, Scan(w, lint), arg);
    } else {
      assert lint + [] == lint && flags + {} == flags;
    }
  }

  lemma InsertedRun(w: Words, flags: set<Flag>, path: string)
    requires Consistent(w) && (Manifest in flags || path != w.separator)
    ensures w.separator !in Inserted(w, flags, path)
    ensures Scan(w, Inserted(w, flags, path)) == Settled(Inserted(w, flags, path), PrefixFlags(flags))
  {
    if Manifest !in flags {
      ManifestRun(w, path);
    }
    var a := if Manifest !in flags then [w.manifest, path] else [];
    var b := if Package !in flags && Manifest !in flags then [w.workspace] else [];
    var f: set<Flag> := if Manifest !in flags then {Manifest} else {};
    var g: set<Flag> := if Package !in flags && Manifest !in flags then {Package} else {};
    SetsRun(w, a, f, w.workspace, Package, Package !in flags && Manifest !in flags);
    SetsRun(w, a + b, f + g, w.noDeps, NoDeps, NoDeps !in flags);
  }

  /** What the second parse finds: the built lists, and the flags the builder looks at. */
  lemma Reparse(w: Words, p: Parsed, path: string)
    requires Consistent(w) && Canonical(w, p) && (Manifest in p.flags || path != w.separator)
    ensures var q := Run(w, START, Built(w, p, path)).parsed;
            && q.lint == Inserted(w, p.flags, path) + p.lint && q.cargo == CargoArgs(w, p)
            && q.flags == PrefixFlags(p.flags) + Scan(w, p.lint).parsed.flags + CargoFlags(w, CargoArgs(w, p))
  {
    var prefix := Inserted(w, p.flags, path);
    InsertedRun(w, p.flags, path);
    ParseJoined(w, prefix + p.lint, CargoArgs(w, p));
    RunConcat(w, START, prefix, p.lint);
    LintRun(w, Scan(w, prefix).parsed, p.lint);
  }

  lemma RebuiltSame(w: Words, p: Parsed, q: Parsed, path: string)
    requires Consistent(w) && Canonical(w, p)
    requires q.lint == Inserted(w, p.flags, path) + p.lint && q.cargo == CargoArgs(w, p)
    requires q.flags == PrefixFlags(p.flags) + Scan(w, p.lint).parsed.flags + CargoFlags(w, CargoArgs(w, p))
    ensures Built(w, q, path) == Built(w, p, path)
  {
    CargoFlagsLast(w, p.cargo, w.allTargets);
    assert p.flags <= q.flags;
    assert Manifest in q.flags && NoDeps in q.flags;
    assert Inserted(w, q.flags, path) == [];
    assert Fix in q.flags || Target in q.flags;
  }

  /** Parsing and building again changes nothing, for exactly the inputs where the inserted
      path cannot be taken for the separator. */
  lemma Fixpoint(w: Words, argv: seq<string>, path: string)
    requires Consistent(w)
    ensures var p := Run(w, START, argv).parsed;
            Built(w, Run(w, START, Built(w, p, path)).parsed, path) == Built(w, p, path)
            <==> (Manifest in p.flags || path != w.separator)
  {
    var p := Run(w, START, argv).parsed;
    ParseIsCanonical(w, argv);
    if Manifest in p.flags || path != w.separator {
      Reparse(w, p, path);
      RebuiltSame(w, p, Run(w, START, Built(w, p, path)).parsed, path);
    } else {
      Swallowed(w, p);
    }
  }

  /** With the separator as path, the second parse ends its lint arguments before it. */
  lemma Swallowed(w: Words, p: Parsed)
    requires Consistent(w) && Canonical(w, p) && Manifest !in p.flags
    ensures var out := Built(w, p, w.separator);
            Built(w, Run(w, START, out).parsed, w.separator) != out
  {
    var out := Built(w, p, w.separator);
    assert Scan(w, []) == START;
    assert p.lint == [] ==> NoDeps !in p.flags;
    assert out[0] == w.manifest && out[1] == w.separator && |out| > 2;
    var rest := out[2..];
    assert out == Joined(w, [w.manifest], rest);
    ParseJoined(w, [w.manifest], rest);
    var q := Run(w, START, out).parsed;
    RunOne(w, START, w.manifest);
    assert Manifest !in q.flags;
    assert |Built(w, q, w.separator)| > |out|;
  }

  /** The shipped wrapper: a fixpoint for every argument list and every path but `--`. */
  lemma WrapperFixpoint(argv: seq<string>, path: string)
    ensures var p := Run(WRAPPER, START, argv).parsed;
            Built(WRAPPER, Run(WRAPPER, START, Built(WRAPPER, p, path)).parsed, path) == Built(WRAPPER, p, path)
            <==> (Manifest in p.flags || path != WRAPPER.separator)
  {
    WrapperConsistent();
    Fixpoint(WRAPPER, argv, path);
  }

  lemma SeparatorAsPath()
    ensures var p := Run(WRAPPER, START, []).parsed;
            Built(WRAPPER, Run(WRAPPER, START, Built(WRAPPER, p, "--")).parsed, "--") != Built(WRAPPER, p, "--")
  {
    WrapperFixpoint([], "--");
  }
}
