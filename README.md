# rtools command assembly, modelled in Dafny

rtools is two small command-line wrappers around cargo:

- `rclippy` runs `cargo clippy`. It turns on a curated lint list chosen by a
  strictness *flavor* (pedantic, development, prototype). Each lint gets one
  severity: warn (`-W`) or deny (`-D`). A fixed allow-list follows, then the
  always-denied `non_ascii_idents`.
- `rcheck` builds one bash command line. It chains check, test, format check,
  a nested `rclippy` call and an optional `cargo run` with `&&`. It runs that
  line directly with `bash -c`, or under `cargo watch` in observe mode.

The model covers what the two binaries build before they spawn anything:

- the flavor enum;
- the lint-runner's argument list;
- the check-runner's command string;
- the outer command that the check-runner chooses.

Process spawning is not modelled.

Files (one module each):

- `wrappers.dfy`: `Option`.
- `clippy_flavor.dfy`: `ClippyFlavor`. The enum, its default, its derived
  order, its rendering and the parser for its command-line token.
- `process.dfy`: `Process`. The `Command` builder that both binaries fill in,
  as a class whose `args` field grows with `Arg`/`Args`.
- `text.dfy`: `Text`. Substring, suffix and word-splitting facts used to
  state what the strings contain.
- `rclippy.dfy`: `RClippy`. The three lint catalogs, copied entry for entry;
  catalog selection; the spec function `ClippyArgs`; and the method
  `ClippyCommand`, which fills a `Command` step by step as the source does.
- `rcheck.dfy`: `RCheck`. The `COMMANDS` table; `BuildCmd`, a loop over the
  table with the source's `continue`, proved equal to the spec function
  `RunArg`; `FmtRclippy`; and the observe/non-observe choice in
  `CheckCommand`.

The model keeps the source's exact concatenation, including its quirks:

- `--release` is glued to each cargo subcommand with no space. With `-O` the
  steps read `cargo check--release`, `cargo test--release` and
  `cargo fmt --check--release`.
- `&&` is glued to `rclippy`.
- The greeting is glued to the first `&&`.
- The nested call always ends in three space-separated slots, some of them
  empty.

`GluedRelease`, `PedanticReleaseRunScenario` and `ObserveOptimizeScenario`
state these literally.

## Model

| member | source | states |
|---|---|---|
| `ClippyFlavor.Parse` | src/clippy_flavor.rs:5-15 | The value parser accepts a token exactly when some variant renders to it. A parsed variant renders back to the very token parsed. Every other string is rejected. |
| `ClippyFlavor.ParseArg` | src/rcheck.rs:21-23 | An omitted flavor argument yields the default variant. A given one is accepted exactly when it is some variant's token, and then yields that variant. |
| `ClippyFlavor.ToStringLowercase` | src/clippy_flavor.rs:17-26 | Every variant renders to a non-empty string of lowercase letters. |
| `ClippyFlavor.ToStringInjective` | src/clippy_flavor.rs:19-23 | Two variants render to the same string if and only if they are the same variant. |
| `ClippyFlavor.ParseToString` | src/clippy_flavor.rs:17-26 | Parsing the rendering of any variant gives that variant back. |
| `ClippyFlavor.ToStringParse` | src/clippy_flavor.rs:5 | A successful parse renders back to its input. A failed parse means the input is none of `pedantic`, `development`, `prototype`. |
| `ClippyFlavor.DefaultIsDevelopment` | src/clippy_flavor.rs:11-12 | The default variant is Development, rendered `development`. |
| `ClippyFlavor.DeclarationOrder` | src/clippy_flavor.rs:5-15 | The derived order is Pedantic < Development < Prototype. It is irreflexive, transitive and total. |
| `Process.Command.constructor` | src/rclippy.rs:218 | A new command has the given program and no arguments. |
| `Process.Command.Arg` | src/rclippy.rs:220 | Appends exactly one argument and changes nothing else. |
| `Process.Command.Args` | src/rclippy.rs:240-251 | Appends the given arguments in order and changes nothing else. |
| `RClippy.Severity` | src/rclippy.rs:228 | The severity flag is `-W` or `-D`. It is `-W` exactly when warn is set. |
| `RClippy.Catalogs` | src/rclippy.rs:230-234 | A flavor turns on a prefix of the catalog list (development, then pedantic). The prefix is shorter the later the flavor is declared: both for pedantic, the development catalog for development, none for prototype. |
| `RClippy.SelectionByFlavor` | src/rclippy.rs:230-234 | Pedantic selects the development catalog followed by the pedantic addendum. Development selects the development catalog. Prototype selects nothing. The development selection is a prefix of the pedantic one. |
| `RClippy.ClippyCommand` | src/rclippy.rs:218-255 | The built `cargo` command's argument list equals `ClippyArgs` of the options. It is a fresh object. |
| `RClippy.AppendPairs` | src/rclippy.rs:236-238 | The loop appends each item after its own copy of the flag, in order, and nothing else. |
| `RClippy.PairsAt` | src/rclippy.rs:236-238 | A flag/item segment has length twice the item count. Item i sits at position 2i+1, right after the flag at 2i. |
| `RClippy.PairsLength` | src/rclippy.rs:236-238 | A flag/item segment has exactly two arguments per item. |
| `RClippy.ArgsHeader` | src/rclippy.rs:220-226 | The list starts with `clippy`. Then comes `--release` if and only if optimize is set, then `--`. The header holds `--release` only when optimizing. |
| `RClippy.ArgsLength` | src/rclippy.rs:218-255 | The total length is 2 + (1 if optimizing) + 2·(selected lints) + 10 + 2·(always-denied lints). |
| `RClippy.LintPairsAt` | src/rclippy.rs:228-238 | After the header, the i-th selected lint appears at its own slot, in catalog order. It is preceded directly by the uniform severity flag. |
| `RClippy.FixedBlockAfterLints` | src/rclippy.rs:240-251 | Right after the lint pairs come ten arguments that do not depend on the flavor. They are the four allow-list lints, each after `-A` and in source order, then the severity flag and `warnings`. |
| `RClippy.AllowPairs` | src/rclippy.rs:240-251 | The literal ten-argument block is the allow-list paired with `-A`, followed by the severity and `warnings`. |
| `RClippy.DenyAlwaysLast` | src/rclippy.rs:253-255 | Every always-denied lint closes the list paired with `-D`, whatever the warn flag. Warn mode cannot downgrade them. |
| `RClippy.EndsWithNonAsciiDeny` | src/rclippy.rs:253-255 | The always-deny loop closes every argument list, so each list ends with `-D non_ascii_idents`, the only always-denied lint (src/rclippy.rs:196). |
| `RClippy.PrototypeWarnScenario` | src/rclippy.rs:218-255 | `prototype -w` gives `clippy --`, the allow block, `-W warnings` and `-D non_ascii_idents`, and no catalog lint. |
| `RClippy.DefaultScenario` | src/rclippy.rs:230-238 | With no arguments, every development lint is denied at its slot after `clippy --`. The list has 2 + 2·(development lints) + 12 arguments. |
| `RCheck.FmtRclippy` | src/rcheck.rs:123-135 | Writing the nested call appends exactly `RclippyCall` to the buffer. |
| `RCheck.BuildCmd` | src/rcheck.rs:81-120 | The loop over `COMMANDS`, with its `continue` on a skipped run step, returns exactly `RunArg`. |
| `RCheck.CheckCommand` | src/rcheck.rs:55-63 | Observe mode gives `cargo watch -- bash -c <built>`. Otherwise the command is `bash -c <built>`. Either way the built string is passed through unchanged. |
| `RCheck.RunArgShape` | src/rcheck.rs:82-117 | The built string is the greeting, then check, test and format check (each followed directly by `--release` when optimizing), then `&&` glued to the nested call, then the run step only when asked for. |
| `RCheck.StepTexts` | src/rcheck.rs:85-116 | What each table entry contributes, entry by entry. |
| `RCheck.StartsWithEcho` | src/rcheck.rs:83 | The built string always starts with `echo 'running rcheck'`. |
| `RCheck.RunStepIffRun` | src/rcheck.rs:90-98 | The built string contains `&& cargo run ` if and only if run is set. When it is set, the string ends with `&& cargo run ` followed by `--release` exactly when optimizing. |
| `RCheck.GluedRelease` | src/rcheck.rs:90-107 | With optimize, the table's cargo steps read `&& cargo check--release`, `&& cargo test--release` and `&& cargo fmt --check--release`, with no space, and a requested run step reads `&& cargo run --release`. Without optimize they read `&& cargo check`, `&& cargo test`, `&& cargo fmt --check` and `&& cargo run `. |
| `RCheck.NestedOptimizeIff` | src/rcheck.rs:129-133 | The nested lint call contains `-O` if and only if optimize is set and observe is not. |
| `RCheck.NestedCallWords` | src/rcheck.rs:123-135 | Split into non-empty words, the nested call is `rclippy`, the flavor token, `-w` if warning, and `-O` if optimizing outside observe mode. The token parses back to the same flavor. |
| `RCheck.DefaultScenario` | src/rcheck.rs:81-120 | With no arguments the string is the greeting, `&& cargo check`, `&& cargo test`, `&& cargo fmt --check` and `&&rclippy development   `. There is no run step. |
| `RCheck.PedanticReleaseRunScenario` | src/rcheck.rs:81-120 | `pedantic -r -O` glues `--release` to every cargo step, forwards `-O` and ends with `&& cargo run --release`. |
| `RCheck.ObserveOptimizeScenario` | src/rcheck.rs:81-120 | `-w -o -O` keeps `--release` on the cargo steps. The nested call becomes `rclippy development -w  `, without `-O`. |

The following functions define the expected results. They carry no contract of
their own, and the lemmas in the rows above state their properties. `RClippy.ClippyArgs`
(src/rclippy.rs:218-255) is characterised by `ArgsHeader`, `ArgsLength`,
`LintPairsAt`, `FixedBlockAfterLints` and `DenyAlwaysLast`. `RClippy.Selected`
(src/rclippy.rs:230-234) is characterised by `SelectionByFlavor`.
`RCheck.RunArg` and `RCheck.StepText` (src/rcheck.rs:81-120) are characterised
by `RunArgShape`, `StepTexts`, `StartsWithEcho` and `RunStepIffRun`.
`RCheck.RclippyCall` (src/rcheck.rs:123-135) is characterised by
`NestedOptimizeIff` and `NestedCallWords`.

## Left out

- Spawning the child, inheriting stdin/stdout/stderr and waiting for it (src/rclippy.rs:257-261, src/rcheck.rs:67-71). This is operating-system I/O.
- Exit-code handling (src/rclippy.rs:263-267, src/rcheck.rs:73-77). The source exits with the child's code when there is one and returns `Ok(())` otherwise. This is process plumbing.
- clap's derive-based parsing of the options (src/rclippy.rs:199-213, src/rcheck.rs:17-40). clap is a foreign library. The options are plain records (`RClippy.Options`, `RCheck.Options`). Only the flavor token parser and the default for an omitted flavor are modelled.
- The `eprintln!` of the assembled command (src/rcheck.rs:65). It is output only.
- What bash, `&&`, `cargo watch` and clippy do when run, including short-circuiting and which of two conflicting lint flags wins. These are external tools. `Text.Words` is plain splitting on spaces, enough for the quote-free nested call. It is not a model of bash.
- The `"-x"`/`"-s"` flag strings of `COMMANDS` are an enum (`RCheck.StepKind`). The `unreachable!()` arm of src/rcheck.rs:114 therefore has no counterpart.
- `let _ = write!(..)` into a `String` (src/rcheck.rs:124) cannot fail, so `FmtRclippy` has no error path.
- `String::with_capacity(1024)` in `build_cmd` (src/rcheck.rs:82) only reserves space. The capacity has no observable effect, so `BuildCmd` starts from the empty string.
- No lemma states that in warn mode `-D` appears only in the always-deny tail. That would need a fact about each of the 167 development lints (that none is spelled `-D`). `LintPairsAt`, `FixedBlockAfterLints` and `DenyAlwaysLast` instead pin the flag at every slot.
