/** The check-runner: one shell command line chaining check, test, format
    check, the lint-runner and optionally `cargo run` with `&&`, run
    directly through bash or under `cargo watch`. */
module RCheck {
  import opened Wrappers
  import opened ClippyFlavor
  import opened Text
  import Process

  /** The flag of a table entry: "-x" runs a cargo subcommand, "-s" an
      external binary. */
  datatype StepKind = Subcommand | Binary

  /** The steps, in the order they are chained. */
  const COMMANDS: seq<(StepKind, string)> := [
    (Subcommand, "check"),
    (Subcommand, "test"),
    (Subcommand, "fmt --check"),
    (Binary, "rclippy"),
    (Subcommand, "run")
  ]

  /** The parsed command line of the check-runner. */
  datatype Options = Options(flavor: Flavor, run: bool, warn: bool, observe: bool, optimize: bool)

  /** The options when no argument is given. */
  const DEFAULT_OPTIONS: Options := Options(DEFAULT, false, false, false, false)

  /** The greeting every built command starts with. */
  const ECHO: string := "echo 'running rcheck'"

  /** What an optimized build glues to the end of a cargo step. */
  function Release(optimize: bool): string
  {
    if optimize then "--release" else ""
  }

  /** The nested lint-runner call: flavor token, `-w` or nothing, `-O` or
      nothing, each followed by a space. */
  function RclippyCall(o: Options): string
  {
    "rclippy " + ToString(o.flavor) + " " + (if o.warn then "-w" else "") + " "
      + (if o.optimize && !o.observe then "-O" else "") + " "
  }

  /** `fmt_rclippy`: writes the nested lint-runner call onto `out`. */
  method FmtRclippy(o: Options, out: string) returns (res: string)
    ensures res == out + RclippyCall(o)
  {
    res := out + "rclippy " + ToString(o.flavor) + " ";
    res := res + (if o.warn then "-w" else "") + " ";
    res := res + (if o.optimize && !o.observe then "-O" else "") + " ";
  }

  /** The text one table entry adds to the command. */
  function StepText(o: Options, step: (StepKind, string)): string
  {
    var (flag, cmd) := step;
    if cmd == "rclippy" then "&&" + RclippyCall(o)
    else if cmd == "run" then (if o.run then "&& cargo run " + Release(o.optimize) else "")
    else match flag
      case Subcommand => "&& cargo " + cmd + Release(o.optimize)
      case Binary => "&& " + cmd
  }

  /** The texts of `steps`, in order. */
  function Appended(o: Options, steps: seq<(StepKind, string)>): string
  {
    if steps == [] then "" else Appended(o, steps[..|steps| - 1]) + StepText(o, steps[|steps| - 1])
  }

  /** The command string handed to bash. */
  function RunArg(o: Options): string
  {
    ECHO + Appended(o, COMMANDS)
  }

  /** `build_cmd`: walks the table, appending each step's text. */
  method BuildCmd(o: Options) returns (runArg: string)
    ensures runArg == RunArg(o)
  {
    runArg := ECHO;
    for i := 0 to |COMMANDS|
      invariant runArg == ECHO + Appended(o, COMMANDS[..i])
    {
      AppendedStep(o, COMMANDS, i);
      ghost var before := runArg;
      var (flag, cmd) := COMMANDS[i];
      if cmd == "rclippy" {
        runArg := runArg + "&&";
        runArg := FmtRclippy(o, runArg);
        ConcatAssoc(before, "&&", RclippyCall(o));
      } else if cmd == "run" {
        if o.run {
          runArg := runArg + "&& cargo run ";
          if o.optimize {
            runArg := runArg + "--release";
          }
          ConcatAssoc(before, "&& cargo run ", Release(o.optimize));
        } else {
          assert StepText(o, COMMANDS[i]) == "";
          continue;
        }
      } else {
        match flag
        case Subcommand =>
          runArg := runArg + "&& cargo ";
          runArg := runArg + cmd;
          if o.optimize {
            runArg := runArg + "--release";
          }
          ConcatAssoc(before, "&& cargo ", cmd);
          ConcatAssoc(before, "&& cargo " + cmd, Release(o.optimize));
        case Binary =>
          runArg := runArg + "&& ";
          runArg := runArg + cmd;
          ConcatAssoc(before, "&& ", cmd);
      }
      assert runArg == before + StepText(o, COMMANDS[i]);
      ConcatAssoc(ECHO, Appended(o, COMMANDS[..i]), StepText(o, COMMANDS[i]));
    }
    assert COMMANDS[..|COMMANDS|] == COMMANDS;
  }

  /** The command `main` spawns: `cargo watch -- bash -c <cmd>` when
      observing, `bash -c <cmd>` otherwise, with the built string passed
      through unchanged as the last argument. */
  method CheckCommand(o: Options) returns (cmd: Process.Command)
    ensures fresh(cmd)
    ensures o.observe ==> cmd.program == "cargo" && cmd.args == ["watch", "--", "bash", "-c", RunArg(o)]
    ensures !o.observe ==> cmd.program == "bash" && cmd.args == ["-c", RunArg(o)]
  {
    var runCmd := BuildCmd(o);
    if o.observe {
      cmd := new Process.Command("cargo");
      cmd.Args(["watch", "--", "bash", "-c", runCmd]);
    } else {
      cmd := new Process.Command("bash");
      cmd.Args(["-c", runCmd]);
    }
  }

  /** The whole command, spelled out: the greeting, then check, test and
      format check, each followed directly (no space) by `--release` when
      optimizing, then `&&` glued to the lint-runner call, then the run step
      only when asked for. */
  lemma RunArgShape(o: Options)
    ensures RunArg(o) ==
            ECHO
            + ("&& cargo check" + Release(o.optimize))
            + ("&& cargo test" + Release(o.optimize))
            + ("&& cargo fmt --check" + Release(o.optimize))
            + ("&&" + RclippyCall(o))
            + (if o.run then "&& cargo run " + Release(o.optimize) else "")
  {
    var c := COMMANDS;
    var s0, s1, s2, s3, s4 := StepText(o, c[0]), StepText(o, c[1]), StepText(o, c[2]), StepText(o, c[3]), StepText(o, c[4]);
    AppendedFive(o, c);
    ConcatAssoc(ECHO, s0, s1);
    ConcatAssoc(ECHO, s0 + s1, s2);
    ConcatAssoc(ECHO, s0 + s1 + s2, s3);
    ConcatAssoc(ECHO, s0 + s1 + s2 + s3, s4);
    StepTexts(o);
  }

  /** A five-entry table walked to its end is its five texts in order. */
  lemma AppendedFive(o: Options, c: seq<(StepKind, string)>)
    requires |c| == 5
    ensures Appended(o, c) ==
            StepText(o, c[0]) + StepText(o, c[1]) + StepText(o, c[2]) + StepText(o, c[3]) + StepText(o, c[4])
  {
    assert c[..0] == [] && c[..5] == c;
    AppendedStep(o, c, 0);
    assert Appended(o, c[..1]) == StepText(o, c[0]);
    AppendedStep(o, c, 1);
    assert Appended(o, c[..2]) == StepText(o, c[0]) + StepText(o, c[1]);
    AppendedStep(o, c, 2);
    AppendedStep(o, c, 3);
    AppendedStep(o, c, 4);
  }

  /** What each table entry contributes. */
  lemma StepTexts(o: Options)
    ensures StepText(o, COMMANDS[0]) == "&& cargo check" + Release(o.optimize)
    ensures StepText(o, COMMANDS[1]) == "&& cargo test" + Release(o.optimize)
    ensures StepText(o, COMMANDS[2]) == "&& cargo fmt --check" + Release(o.optimize)
    ensures StepText(o, COMMANDS[3]) == "&&" + RclippyCall(o)
    ensures StepText(o, COMMANDS[4]) == if o.run then "&& cargo run " + Release(o.optimize) else ""
  {
  }

  lemma AppendedStep(o: Options, steps: seq<(StepKind, string)>, i: nat)
    requires i < |steps|
    ensures Appended(o, steps[..i + 1]) == Appended(o, steps[..i]) + StepText(o, steps[i])
  {
    assert steps[..i + 1][..i] == steps[..i];
  }

  /** The built command always opens with the greeting. */
  lemma StartsWithEcho(o: Options)
    ensures |RunArg(o)| >= |ECHO| && RunArg(o)[..|ECHO|] == ECHO
  {
  }

  /** None of the fixed fragments or flavor tokens holds a `u`. */
  lemma NoUInSteps(o: Options)
    ensures 'u' !in "&& cargo check" + Release(o.optimize)
              + ("&& cargo test" + Release(o.optimize))
              + ("&& cargo fmt --check" + Release(o.optimize))
              + ("&&" + RclippyCall(o))
  {
    assert 'u' !in ToString(o.flavor);
  }

  /** A `cargo run` step is chained exactly when it was asked for, and then
      it closes the command, followed directly by `--release` when optimizing. */
  lemma RunStepIffRun(o: Options)
    ensures Contains(RunArg(o), "&& cargo run ") <==> o.run
    ensures o.run ==> EndsWith(RunArg(o), "&& cargo run " + Release(o.optimize))
  {
    RunArgShape(o);
    var r := Release(o.optimize);
    var body := "&& cargo check" + r + ("&& cargo test" + r) + ("&& cargo fmt --check" + r) + ("&&" + RclippyCall(o));
    var runStep := if o.run then "&& cargo run " + r else "";
    ConcatAssoc(ECHO, "&& cargo check" + r, "&& cargo test" + r);
    ConcatAssoc(ECHO, "&& cargo check" + r + ("&& cargo test" + r), "&& cargo fmt --check" + r);
    ConcatAssoc(ECHO, "&& cargo check" + r + ("&& cargo test" + r) + ("&& cargo fmt --check" + r), "&&" + RclippyCall(o));
    assert RunArg(o) == ECHO + body + runStep;
    if o.run {
      assert RunArg(o)[|ECHO + body|..] == runStep;
      ContainsPrefixOf(RunArg(o), "&& cargo run ", |ECHO + body|);
    } else {
      assert RunArg(o) == ECHO + body;
      if Contains(RunArg(o), "&& cargo run ") {
        var i :| 0 <= i <= |RunArg(o)| - 13 && OccursAt(RunArg(o), "&& cargo run ", i);
        assert '&' !in ECHO;
        OccursInSuffix(ECHO, body, "&& cargo run ", i);
        NoUInSteps(o);
        MissingChar(body, "&& cargo run ", 10);
        assert false;
      }
    }
  }

  /** The `-w` slot of the nested call. */
  function WarnArg(o: Options): string
  {
    if o.warn then "-w" else ""
  }

  /** The `-O` slot of the nested call: observing suppresses it. */
  function OptimizeArg(o: Options): string
  {
    if o.optimize && !o.observe then "-O" else ""
  }

  lemma RclippyCallParts(o: Options)
    ensures RclippyCall(o) ==
            "rclippy" + " " + (ToString(o.flavor) + " " + (WarnArg(o) + " " + (OptimizeArg(o) + " ")))
  {
  }

  /** The nested call carries `-O` exactly when optimizing outside watch mode. */
  lemma NestedOptimizeIff(o: Options)
    ensures Contains(RclippyCall(o), "-O") <==> o.optimize && !o.observe
  {
    var call := RclippyCall(o);
    RclippyCallParts(o);
    assert 'O' !in ToString(o.flavor);
    if o.optimize && !o.observe {
      var i := |call| - 3;
      assert call[i..i + 2] == "-O";
      assert OccursAt(call, "-O", i);
    } else {
      assert 'O' !in call;
      MissingChar(call, "-O", 1);
    }
  }

  /** Split into words as the shell passes them on, the nested call is the
      lint-runner's name, the flavor token (which parses back to the same
      flavor), `-w` when warning, and `-O` when optimizing outside watch mode. */
  lemma NestedCallWords(o: Options)
    ensures Words(RclippyCall(o)) ==
            ["rclippy", ToString(o.flavor)]
            + (if o.warn then ["-w"] else [])
            + (if o.optimize && !o.observe then ["-O"] else [])
    ensures Parse(Words(RclippyCall(o))[1]) == Some(o.flavor)
  {
    var t, w, z := ToString(o.flavor), WarnArg(o), OptimizeArg(o);
    RclippyCallParts(o);
    ToStringLowercase(o.flavor);
    assert ' ' !in "rclippy" && ' ' !in t && ' ' !in w && ' ' !in z;
    WordsOfFour("rclippy", t, w, z);
    ParseToString(o.flavor);
  }

  /** Four space-terminated slots split into their non-empty words. */
  lemma WordsOfFour(a: string, b: string, c: string, d: string)
    requires a != [] && b != []
    requires ' ' !in a && ' ' !in b && ' ' !in c && ' ' !in d
    ensures Words(a + " " + (b + " " + (c + " " + (d + " ")))) ==
            [a, b] + (if c == [] then [] else [c]) + (if d == [] then [] else [d])
  {
    WordsCons(a, b + " " + (c + " " + (d + " ")));
    WordsOfThree(b, c, d);
    PrependTwo(a, b, if c == [] then [] else [c], if d == [] then [] else [d]);
  }

  lemma PrependTwo(a: string, b: string, x: seq<string>, y: seq<string>)
    ensures [a] + ([b] + x + y) == [a, b] + x + y
  {
  }

  /** A non-empty word followed by two possibly empty slots. */
  lemma WordsOfThree(b: string, c: string, d: string)
    requires b != []
    requires ' ' !in b && ' ' !in c && ' ' !in d
    ensures Words(b + " " + (c + " " + (d + " "))) ==
            [b] + (if c == [] then [] else [c]) + (if d == [] then [] else [d])
  {
    WordsOfTwo(c, d);
    WordsCons(b, c + " " + (d + " "));
  }

  /** Two possibly empty space-terminated slots split into their non-empty words. */
  lemma WordsOfTwo(c: string, d: string)
    requires ' ' !in c && ' ' !in d
    ensures Words(c + " " + (d + " ")) == (if c == [] then [] else [c]) + (if d == [] then [] else [d])
  {
    assert Words("") == [];
    assert d + " " + "" == d + " ";
    WordsOptional(d, "");
    WordsOptional(c, d + " ");
  }

  /** No arguments: check, test and format check, then the lint-runner with
      the development flavor and deny severity; no run step. */
  lemma DefaultScenario()
    ensures RunArg(DEFAULT_OPTIONS) ==
            "echo 'running rcheck'" + "&& cargo check" + "&& cargo test" + "&& cargo fmt --check"
            + "&&rclippy development   "
  {
    var o := DEFAULT_OPTIONS;
    RunArgShape(o);
    NoRelease();
    NestedCallText(o);
    var e := ECHO + "&& cargo check" + "&& cargo test" + "&& cargo fmt --check" + "&&rclippy development   ";
    EmptyRight(e);
  }

  /** `pedantic -r -O`: every cargo step is optimized, `-O` is forwarded and
      the run step closes the chain. */
  lemma PedanticReleaseRunScenario()
    ensures RunArg(Options(Pedantic, true, false, false, true)) ==
            "echo 'running rcheck'" + "&& cargo check--release" + "&& cargo test--release"
            + "&& cargo fmt --check--release" + "&&rclippy pedantic  -O " + "&& cargo run --release"
  {
    var o := Options(Pedantic, true, false, false, true);
    RunArgShape(o);
    ReleaseLiterals();
    NestedCallText(o);
  }

  /** `-w -o -O`: observing keeps `--release` on the cargo steps but drops
      `-O` from the nested call. */
  lemma ObserveOptimizeScenario()
    ensures RunArg(Options(Development, false, true, true, true)) ==
            "echo 'running rcheck'" + "&& cargo check--release" + "&& cargo test--release"
            + "&& cargo fmt --check--release" + "&&rclippy development -w  "
  {
    var o := Options(Development, false, true, true, true);
    RunArgShape(o);
    ReleaseLiterals();
    NestedCallText(o);
    var e := ECHO + "&& cargo check--release" + "&& cargo test--release" + "&& cargo fmt --check--release"
             + "&&rclippy development -w  ";
    EmptyRight(e);
  }

  /** With optimize, every cargo step of the table carries `--release`
      glued on with no space; without it nothing is glued on. */
  lemma GluedRelease(o: Options)
    ensures StepText(o, COMMANDS[0]) == if o.optimize then "&& cargo check--release" else "&& cargo check"
    ensures StepText(o, COMMANDS[1]) == if o.optimize then "&& cargo test--release" else "&& cargo test"
    ensures StepText(o, COMMANDS[2]) == if o.optimize then "&& cargo fmt --check--release" else "&& cargo fmt --check"
    ensures o.run ==> StepText(o, COMMANDS[4]) == if o.optimize then "&& cargo run --release" else "&& cargo run "
  {
    StepTexts(o);
    ReleaseLiterals();
    NoRelease();
  }

  /** The cargo step texts with `--release` glued on, spelled out. */
  lemma ReleaseLiterals()
    ensures "&& cargo check" + Release(true) == "&& cargo check--release"
    ensures "&& cargo test" + Release(true) == "&& cargo test--release"
    ensures "&& cargo fmt --check" + Release(true) == "&& cargo fmt --check--release"
    ensures "&& cargo run " + Release(true) == "&& cargo run --release"
  {
  }

  /** Without optimizing nothing is glued to the cargo subcommands. */
  lemma NoRelease()
    ensures "&& cargo check" + Release(false) == "&& cargo check"
    ensures "&& cargo test" + Release(false) == "&& cargo test"
    ensures "&& cargo fmt --check" + Release(false) == "&& cargo fmt --check"
  {
  }

  /** The nested call of the scenarios, spelled out. */
  lemma NestedCallText(o: Options)
    ensures o == DEFAULT_OPTIONS ==> "&&" + RclippyCall(o) == "&&rclippy development   "
    ensures o.optimize && o.flavor == Pedantic && !o.warn && !o.observe ==> "&&" + RclippyCall(o) == "&&rclippy pedantic  -O "
    ensures o.optimize && o.flavor == Development && o.warn && o.observe ==> "&&" + RclippyCall(o) == "&&rclippy development -w  "
  {
  }
}
