/** The lint-runner: the `cargo clippy` invocation with a curated lint list
    selected by flavor, a fixed allow-list and a fixed always-deny list. */
module RClippy {
  import opened ClippyFlavor
  import Process

  /** Baseline catalog used by the development flavor (and by pedantic). */
  const DEVELOPMENT_LINTS: seq<string> := [
    "missing_docs",
    "clippy::wildcard_dependencies",
    "clippy::borrow_as_ptr",
    "clippy::case_sensitive_file_extension_comparisons",
    "clippy::cast_lossless",
    "clippy::cast_possible_truncation",
    "clippy::cast_possible_wrap",
    "clippy::cast_precision_loss",
    "clippy::cast_ptr_alignment",
    "clippy::cast_sign_loss",
    "clippy::checked_conversions",
    "clippy::cloned_instead_of_copied",
    "clippy::copy_iterator",
    "clippy::default_trait_access",
    "clippy::doc_link_with_quotes",
    "clippy::doc_markdown",
    "clippy::empty_enum",
    "clippy::enum_glob_use",
    "clippy::expl_impl_clone_on_copy",
    "clippy::explicit_deref_methods",
    "clippy::filter_map_next",
    "clippy::flat_map_option",
    "clippy::float_cmp",
    "clippy::fn_params_excessive_bools",
    "clippy::from_iter_instead_of_collect",
    "clippy::if_not_else",
    "clippy::implicit_clone",
    "clippy::implicit_hasher",
    "clippy::inconsistent_struct_constructor",
    "clippy::index_refutable_slice",
    "clippy::inefficient_to_string",
    "clippy::inline_always",
    "clippy::invalid_upcast_comparisons",
    "clippy::items_after_statements",
    "clippy::iter_not_returning_iterator",
    "clippy::large_digit_groups",
    "clippy::large_stack_arrays",
    "clippy::large_types_passed_by_value",
    "clippy::linkedlist",
    "clippy::macro_use_imports",
    "clippy::manual_assert",
    "clippy::manual_instant_elapsed",
    "clippy::manual_let_else",
    "clippy::manual_ok_or",
    "clippy::manual_string_new",
    "clippy::many_single_char_names",
    "clippy::map_unwrap_or",
    "clippy::match_bool",
    "clippy::match_on_vec_items",
    "clippy::match_same_arms",
    "clippy::match_wild_err_arm",
    "clippy::match_wildcard_for_single_variants",
    "clippy::maybe_infinite_iter",
    "clippy::mismatching_type_param_order",
    "clippy::missing_errors_doc",
    "clippy::missing_panics_doc",
    "clippy::module_name_repetitions",
    "clippy::must_use_candidate",
    "clippy::mut_mut",
    "clippy::naive_bytecount",
    "clippy::needless_bitwise_bool",
    "clippy::needless_continue",
    "clippy::needless_for_each",
    "clippy::needless_pass_by_value",
    "clippy::no_effect_underscore_binding",
    "clippy::option_option",
    "clippy::ptr_as_ptr",
    "clippy::range_minus_one",
    "clippy::range_plus_one",
    "clippy::redundant_closure_for_method_calls",
    "clippy::redundant_else",
    "clippy::ref_binding_to_reference",
    "clippy::ref_option_ref",
    "clippy::return_self_not_must_use",
    "clippy::same_functions_in_if_condition",
    "clippy::semicolon_if_nothing_returned",
    "clippy::similar_names",
    "clippy::single_match_else",
    "clippy::stable_sort_primitive",
    "clippy::string_add_assign",
    "clippy::struct_excessive_bools",
    "clippy::too_many_lines",
    "clippy::transmute_ptr_to_ptr",
    "clippy::trivially_copy_pass_by_ref",
    "clippy::unchecked_duration_subtraction",
    "clippy::unicode_not_nfc",
    "clippy::unnecessary_join",
    "clippy::unnecessary_wraps",
    "clippy::unnested_or_patterns",
    "clippy::unreadable_literal",
    "clippy::unsafe_derive_deserialize",
    "clippy::unused_async",
    "clippy::unused_self",
    "clippy::used_underscore_binding",
    "clippy::verbose_bit_mask",
    "clippy::wildcard_imports",
    "clippy::zero_sized_map_values",
    "clippy::as_ptr_cast_mut",
    "clippy::branches_sharing_code",
    "clippy::debug_assert_with_mut_call",
    "clippy::derive_partial_eq_without_eq",
    "clippy::empty_line_after_outer_attr",
    "clippy::fallible_impl_from",
    "clippy::iter_on_empty_collections",
    "clippy::iter_on_single_items",
    "clippy::manual_clamp",
    "clippy::mutex_integer",
    "clippy::needless_collect",
    "clippy::nonstandard_macro_braces",
    "clippy::or_fun_call",
    "clippy::path_buf_push_overwrite",
    "clippy::redundant_pub_crate",
    "clippy::significant_drop_in_scrutinee",
    "clippy::string_lit_as_bytes",
    "clippy::suboptimal_flops",
    "clippy::suspicious_operation_groupings",
    "clippy::trailing_empty_array",
    "clippy::trait_duplication_in_bounds",
    "clippy::transmute_undefined_repr",
    "clippy::trivial_regex",
    "clippy::type_repetition_in_bounds",
    "clippy::unused_peekable",
    "clippy::unused_rounding",
    "clippy::use_self",
    "clippy::useless_let_if_seq",
    "clippy::allow_attributes_without_reason",
    "clippy::arithmetic_side_effects",
    "clippy::as_conversions",
    "clippy::as_underscore",
    "clippy::assertions_on_result_states",
    "clippy::clone_on_ref_ptr",
    "clippy::create_dir",
    "clippy::decimal_literal_representation",
    "clippy::default_numeric_fallback",
    "clippy::default_union_representation",
    "clippy::disallowed_script_idents",
    "clippy::empty_drop",
    "clippy::empty_structs_with_brackets",
    "clippy::exit",
    "clippy::expect_used",
    "clippy::filetype_is_file",
    "clippy::float_cmp_const",
    "clippy::fn_to_numeric_cast_any",
    "clippy::format_push_string",
    "clippy::indexing_slicing",
    "clippy::lossy_float_literal",
    "clippy::mem_forget",
    "clippy::missing_docs_in_private_items",
    "clippy::mixed_read_write_in_expression",
    "clippy::mod_module_files",
    "clippy::mutex_atomic",
    "clippy::pattern_type_mismatch",
    "clippy::rc_buffer",
    "clippy::rc_mutex",
    "clippy::same_name_method",
    "clippy::separated_literal_suffix",
    "clippy::str_to_string",
    "clippy::string_add",
    "clippy::string_slice",
    "clippy::string_to_string",
    "clippy::suspicious_xor_used_as_pow",
    "clippy::try_err",
    "clippy::undocumented_unsafe_blocks",
    "clippy::unnecessary_safety_comment",
    "clippy::unnecessary_safety_doc",
    "clippy::unnecessary_self_imports",
    "clippy::unwrap_used"
  ]

  /** Extra lints that only the pedantic flavor enables. */
  const PEDANTIC_LINTS: seq<string> := ["clippy::todo", "clippy::dbg_macro"]

  /** Lints denied whatever the flavor and the severity. */
  const DENY_ALWAYS: seq<string> := ["non_ascii_idents"]

  /** The lints the fixed block always allows, in the order it lists them. */
  const ALLOWED: seq<string> := [
    "clippy::must_use_candidate",
    "clippy::needless_pass_by_value",
    "clippy::module_name_repetitions",
    "clippy::enum_variant_names"
  ]

  /** The parsed command line of the lint-runner. */
  datatype Options = Options(flavor: Flavor, warn: bool, optimize: bool)

  /** The options when no argument is given. */
  const DEFAULT_OPTIONS: Options := Options(DEFAULT, false, false)

  /** The flag every catalog lint and `warnings` is given: warn or deny. */
  function Severity(warn: bool): (flag: string)
    ensures flag == "-W" || flag == "-D"
    ensures flag == "-W" <==> warn
  {
    if warn then "-W" else "-D"
  }

  /** The catalogs a flavor turns on, in the order they are walked. */
  function Catalogs(f: Flavor): (r: seq<seq<string>>)
    ensures r == [DEVELOPMENT_LINTS, PEDANTIC_LINTS][..2 - Rank(f)]
  {
    match f
    case Pedantic => [DEVELOPMENT_LINTS, PEDANTIC_LINTS]
    case Development => [DEVELOPMENT_LINTS]
    case Prototype => []
  }

  /** The catalogs laid end to end. */
  function Flatten(css: seq<seq<string>>): seq<string>
  {
    if css == [] then [] else Flatten(css[..|css| - 1]) + css[|css| - 1]
  }

  /** Every lint the flavor selects, in catalog order. */
  function Selected(f: Flavor): seq<string>
  {
    Flatten(Catalogs(f))
  }

  /** Each item preceded by `flag`: `flag, items[0], flag, items[1], ...`. */
  function Pairs(flag: string, items: seq<string>): seq<string>
  {
    if items == [] then [] else Pairs(flag, items[..|items| - 1]) + [flag, items[|items| - 1]]
  }

  /** `cargo clippy [--release] --`. */
  function Header(optimize: bool): seq<string>
  {
    ["clippy"] + (if optimize then ["--release"] else []) + ["--"]
  }

  /** The allow-list and the severity for all remaining warnings, written
      out as one block. */
  function FixedBlock(flag: string): seq<string>
  {
    [ "-A", "clippy::must_use_candidate",
      "-A", "clippy::needless_pass_by_value",
      "-A", "clippy::module_name_repetitions",
      "-A", "clippy::enum_variant_names",
      flag, "warnings" ]
  }

  /** The whole argument list given to `cargo`. */
  function ClippyArgs(o: Options): seq<string>
  {
    Assemble(o.optimize, Severity(o.warn), Selected(o.flavor))
  }

  /** The argument list for a given optimize flag, severity and selection. */
  function Assemble(optimize: bool, flag: string, selected: seq<string>): seq<string>
  {
    Header(optimize) + Pairs(flag, selected) + FixedBlock(flag) + Pairs("-D", DENY_ALWAYS)
  }

  /** Builds the `cargo` command step by step as the binary's entry point
      does, before it is spawned. */
  method ClippyCommand(o: Options) returns (cmd: Process.Command)
    ensures fresh(cmd)
    ensures cmd.program == "cargo" && cmd.args == ClippyArgs(o)
  {
    cmd := new Process.Command("cargo");
    cmd.Arg("clippy");
    if o.optimize {
      cmd.Arg("--release");
    }
    cmd.Arg("--");
    assert cmd.args == Header(o.optimize);

    var actionFlag := Severity(o.warn);
    var lints := Catalogs(o.flavor);
    // the loop over `lints.iter().flat_map(..)`
    ghost var selected := Selected(o.flavor);
    AppendPairs(cmd, actionFlag, Flatten(lints));
    assert cmd.args == Header(o.optimize) + Pairs(actionFlag, selected);

    cmd.Args([ "-A", "clippy::must_use_candidate",
               "-A", "clippy::needless_pass_by_value",
               "-A", "clippy::module_name_repetitions",
               "-A", "clippy::enum_variant_names",
               actionFlag, "warnings" ]);
    assert cmd.args == Header(o.optimize) + Pairs(actionFlag, selected) + FixedBlock(actionFlag);

    AppendPairs(cmd, "-D", DENY_ALWAYS);
    assert cmd.args == Assemble(o.optimize, actionFlag, selected);
  }

  /** One `cmd.args([flag, item])` per item, in order. */
  method AppendPairs(cmd: Process.Command, flag: string, items: seq<string>)
    modifies cmd
    ensures cmd.args == old(cmd.args) + Pairs(flag, items)
  {
    for i := 0 to |items|
      invariant cmd.args == old(cmd.args) + Pairs(flag, items[..i])
    {
      PairsAppend(flag, items[..i], items[i]);
      assert items[..i + 1] == items[..i] + [items[i]];
      cmd.Args([flag, items[i]]);
    }
    assert items[..|items|] == items;
  }

  lemma PairsAppend(flag: string, items: seq<string>, x: string)
    ensures Pairs(flag, items + [x]) == Pairs(flag, items) + [flag, x]
  {
    assert (items + [x])[..|items|] == items;
  }

  /** Each item sits at an odd position, right after its own copy of the flag. */
  lemma {:induction false} PairsAt(flag: string, items: seq<string>, i: int)
    requires 0 <= i < |items|
    ensures |Pairs(flag, items)| == 2 * |items|
    ensures Pairs(flag, items)[2 * i] == flag && Pairs(flag, items)[2 * i + 1] == items[i]
  {
    var n := |items| - 1;
    if i < n {
      PairsAt(flag, items[..n], i);
    } else if n > 0 {
      PairsAt(flag, items[..n], 0);
    }
  }

  /** Pedantic walks the baseline then the addendum, development the
      baseline only, prototype nothing; so every development lint is also a
      pedantic one, at the same position. */
  lemma SelectionByFlavor()
    ensures Selected(Pedantic) == DEVELOPMENT_LINTS + PEDANTIC_LINTS
    ensures Selected(Development) == DEVELOPMENT_LINTS
    ensures Selected(Prototype) == []
    ensures Selected(Development) == Selected(Pedantic)[..|Selected(Development)|]
  {
    FlattenTwo(DEVELOPMENT_LINTS, PEDANTIC_LINTS);
    FlattenOne(DEVELOPMENT_LINTS);
    PrefixOfConcat(DEVELOPMENT_LINTS, PEDANTIC_LINTS);
  }

  lemma FlattenOne(a: seq<string>)
    ensures Flatten([a]) == a
  {
    assert [a][..0] == [];
  }

  lemma FlattenTwo(a: seq<string>, b: seq<string>)
    ensures Flatten([a, b]) == a + b
  {
    assert [a, b][..1] == [a];
    FlattenOne(a);
  }

  lemma PrefixOfConcat(a: seq<string>, b: seq<string>)
    ensures (a + b)[..|a|] == a
  {
  }

  lemma {:induction false} PairsLength(flag: string, items: seq<string>)
    ensures |Pairs(flag, items)| == 2 * |items|
  {
    if items != [] {
      PairsLength(flag, items[..|items| - 1]);
    }
  }

  /** Length of the header, the part before the lint pairs. */
  function HeaderLength(optimize: bool): nat
  {
    if optimize then 3 else 2
  }

  // Facts about the assembled list for any selection; the lemmas about
  // ClippyArgs below instantiate them.

  lemma AssembledHeader(optimize: bool, flag: string, sel: seq<string>)
    ensures |Assemble(optimize, flag, sel)| > HeaderLength(optimize)
    ensures Assemble(optimize, flag, sel)[..HeaderLength(optimize)] == Header(optimize)
  {
  }

  lemma AssembledLength(optimize: bool, flag: string, sel: seq<string>)
    ensures |Assemble(optimize, flag, sel)| == HeaderLength(optimize) + 2 * |sel| + 10 + 2 * |DENY_ALWAYS|
  {
    PairsLength(flag, sel);
    PairsLength("-D", DENY_ALWAYS);
  }

  lemma AssembledPairAt(optimize: bool, flag: string, sel: seq<string>, i: int)
    requires 0 <= i < |sel|
    ensures |Assemble(optimize, flag, sel)| > HeaderLength(optimize) + 2 * i + 1
    ensures Assemble(optimize, flag, sel)[HeaderLength(optimize) + 2 * i] == flag
    ensures Assemble(optimize, flag, sel)[HeaderLength(optimize) + 2 * i + 1] == sel[i]
  {
    PairsAt(flag, sel, i);
    var tail := FixedBlock(flag) + Pairs("-D", DENY_ALWAYS);
    assert Assemble(optimize, flag, sel) == Header(optimize) + Pairs(flag, sel) + tail;
  }

  lemma AssembledFixedBlock(optimize: bool, flag: string, sel: seq<string>)
    ensures var start := HeaderLength(optimize) + 2 * |sel|;
            start + 10 <= |Assemble(optimize, flag, sel)| &&
            Assemble(optimize, flag, sel)[start..start + 10] == Pairs("-A", ALLOWED) + [flag, "warnings"]
  {
    AllowPairs(flag);
    var hp := Header(optimize) + Pairs(flag, sel);
    var d := Pairs("-D", DENY_ALWAYS);
    PairsLength(flag, sel);
    assert Assemble(optimize, flag, sel) == hp + FixedBlock(flag) + d;
    assert (hp + FixedBlock(flag) + d)[|hp|..|hp| + 10] == FixedBlock(flag);
  }

  lemma AssembledDenyAt(optimize: bool, flag: string, sel: seq<string>, j: int)
    requires 0 <= j < |DENY_ALWAYS|
    ensures var n := |Assemble(optimize, flag, sel)|;
            n >= 2 * |DENY_ALWAYS| &&
            Assemble(optimize, flag, sel)[n - 2 * |DENY_ALWAYS| + 2 * j] == "-D" &&
            Assemble(optimize, flag, sel)[n - 2 * |DENY_ALWAYS| + 2 * j + 1] == DENY_ALWAYS[j]
  {
    var front := Header(optimize) + Pairs(flag, sel) + FixedBlock(flag);
    PairsAt("-D", DENY_ALWAYS, j);
    assert Assemble(optimize, flag, sel) == front + Pairs("-D", DENY_ALWAYS);
  }

  /** `clippy`, then `--release` exactly when optimizing, then `--`. */
  lemma ArgsHeader(o: Options)
    ensures |ClippyArgs(o)| > HeaderLength(o.optimize)
    ensures ClippyArgs(o)[..HeaderLength(o.optimize)] == Header(o.optimize)
    ensures ClippyArgs(o)[0] == "clippy"
    ensures ClippyArgs(o)[1] == "--release" <==> o.optimize
    ensures ClippyArgs(o)[HeaderLength(o.optimize) - 1] == "--"
    ensures "--release" in Header(o.optimize) <==> o.optimize
  {
    var args := ClippyArgs(o);
    AssembledHeader(o.optimize, Severity(o.warn), Selected(o.flavor));
    assert args[0] == args[..HeaderLength(o.optimize)][0];
    assert args[1] == args[..HeaderLength(o.optimize)][1];
    assert args[HeaderLength(o.optimize) - 1] == args[..HeaderLength(o.optimize)][HeaderLength(o.optimize) - 1];
  }

  /** The argument list is the header, two arguments per selected lint,
      the ten fixed arguments and two per always-denied lint. */
  lemma ArgsLength(o: Options)
    ensures |ClippyArgs(o)| ==
            2 + (if o.optimize then 1 else 0) + 2 * |Selected(o.flavor)| + 10 + 2 * |DENY_ALWAYS|
  {
    AssembledLength(o.optimize, Severity(o.warn), Selected(o.flavor));
  }

  /** Right after the header, every selected lint appears once, in catalog
      order, immediately preceded by the uniform severity flag. */
  lemma LintPairsAt(o: Options, i: int)
    requires 0 <= i < |Selected(o.flavor)|
    ensures |ClippyArgs(o)| > HeaderLength(o.optimize) + 2 * i + 1
    ensures ClippyArgs(o)[HeaderLength(o.optimize) + 2 * i] == Severity(o.warn)
    ensures ClippyArgs(o)[HeaderLength(o.optimize) + 2 * i + 1] == Selected(o.flavor)[i]
  {
    AssembledPairAt(o.optimize, Severity(o.warn), Selected(o.flavor), i);
  }

  /** After the lint pairs comes a block that does not depend on the flavor:
      the four allow-list pairs in order, then the severity for `warnings`. */
  lemma FixedBlockAfterLints(o: Options)
    ensures var start := HeaderLength(o.optimize) + 2 * |Selected(o.flavor)|;
            start + 10 <= |ClippyArgs(o)| &&
            ClippyArgs(o)[start..start + 10] == Pairs("-A", ALLOWED) + [Severity(o.warn), "warnings"]
  {
    AssembledFixedBlock(o.optimize, Severity(o.warn), Selected(o.flavor));
  }

  /** The literal block is the allow-list, each entry after `-A`, then the
      severity for `warnings`. */
  lemma AllowPairs(flag: string)
    ensures FixedBlock(flag) == Pairs("-A", ALLOWED) + [flag, "warnings"]
  {
    var a := ALLOWED;
    assert a[..0] == [] && a[..4] == a;
    PairsAppend("-A", a[..0], a[0]);
    assert a[..1] == a[..0] + [a[0]];
    PairsAppend("-A", a[..1], a[1]);
    assert a[..2] == a[..1] + [a[1]];
    PairsAppend("-A", a[..2], a[2]);
    assert a[..3] == a[..2] + [a[2]];
    PairsAppend("-A", a[..3], a[3]);
    assert a[..4] == a[..3] + [a[3]];
  }

  /** The always-denied lints close the list, each after `-D`, whatever the
      severity: warn mode can never downgrade them. */
  lemma DenyAlwaysLast(o: Options, j: int)
    requires 0 <= j < |DENY_ALWAYS|
    ensures var n := |ClippyArgs(o)|;
            n >= 2 * |DENY_ALWAYS| &&
            ClippyArgs(o)[n - 2 * |DENY_ALWAYS| + 2 * j] == "-D" &&
            ClippyArgs(o)[n - 2 * |DENY_ALWAYS| + 2 * j + 1] == DENY_ALWAYS[j]
  {
    AssembledDenyAt(o.optimize, Severity(o.warn), Selected(o.flavor), j);
  }

  /** Whatever the options, the list ends with `-D non_ascii_idents`. */
  lemma EndsWithNonAsciiDeny(o: Options)
    ensures |ClippyArgs(o)| >= 2
    ensures ClippyArgs(o)[|ClippyArgs(o)| - 2..] == ["-D", "non_ascii_idents"]
  {
    DenyAlwaysLast(o, 0);
  }

  /** `prototype -w`: no catalog lint at all, yet `non_ascii_idents` is still
      denied after the fixed block. */
  lemma PrototypeWarnScenario()
    ensures ClippyArgs(Options(Prototype, true, false)) ==
            [ "clippy", "--",
              "-A", "clippy::must_use_candidate",
              "-A", "clippy::needless_pass_by_value",
              "-A", "clippy::module_name_repetitions",
              "-A", "clippy::enum_variant_names",
              "-W", "warnings",
              "-D", "non_ascii_idents" ]
  {
    SelectionByFlavor();
  }

  /** No arguments: the development catalog, each lint denied. */
  lemma DefaultScenario(i: int)
    requires 0 <= i < |DEVELOPMENT_LINTS|
    ensures |ClippyArgs(DEFAULT_OPTIONS)| == 2 + 2 * |DEVELOPMENT_LINTS| + 12
    ensures ClippyArgs(DEFAULT_OPTIONS)[..2] == ["clippy", "--"]
    ensures ClippyArgs(DEFAULT_OPTIONS)[2 + 2 * i] == "-D"
    ensures ClippyArgs(DEFAULT_OPTIONS)[2 + 2 * i + 1] == DEVELOPMENT_LINTS[i]
  {
    SelectionByFlavor();
    ArgsLength(DEFAULT_OPTIONS);
    ArgsHeader(DEFAULT_OPTIONS);
    LintPairsAt(DEFAULT_OPTIONS, i);
  }
}
