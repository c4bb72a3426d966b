/**
 * The command-line front end of compileroptions.py, after argument parsing: the
 * list of CMake variable names it can print, and what it prints for each.
 */
module FlagGroups {
  import opened Wrappers
  import opened PyStr
  import opened CompilerOptions

  /** The build types that get a CMAKE_<LANG>_FLAGS_<BUILD TYPE> group. */
  const BUILD_TYPE_CHOICES: seq<string> := ["debug", "release", "relwithdebinfo", "minsizerel"]

  /** The values the compiler argument accepts. */
  const COMPILER_CHOICES: seq<string> := ["gcc", "clang"]

  const C_FLAGS := "CMAKE_C_FLAGS"
  const CXX_FLAGS := "CMAKE_CXX_FLAGS"
  const LINKER_FLAGS := "CMAKE_EXE_LINKER_FLAGS"

  /** `[prefix.format(b.upper()) for b in choices]`, with the placeholder at the end of prefix. */
  function PerBuildTypeGroups(prefix: string, choices: seq<string>): (r: seq<string>)
    ensures |r| == |choices|
  {
    seq(|choices|, i requires 0 <= i < |choices| => prefix + Upper(choices[i]))
  }

  /** The values the output-group argument accepts, in the order the help text lists them. */
  const COMPILER_FLAGS_GROUPS: seq<string> :=
    [C_FLAGS] + PerBuildTypeGroups(C_FLAGS + "_", BUILD_TYPE_CHOICES)
    + [CXX_FLAGS] + PerBuildTypeGroups(CXX_FLAGS + "_", BUILD_TYPE_CHOICES)
    + [LINKER_FLAGS]

  /** The upper-cased build-type choices, as they appear in the group names. */
  lemma UpperedChoices()
    ensures Upper("debug") == "DEBUG"
    ensures Upper("release") == "RELEASE"
    ensures Upper("relwithdebinfo") == "RELWITHDEBINFO"
    ensures Upper("minsizerel") == "MINSIZEREL"
  {
  }

  /** The upper-cased compiler choices are the table's compiler keys. */
  lemma UpperedCompilers()
    ensures Upper("gcc") == "GCC" && Upper("clang") == "CLANG"
  {
  }

  /** The comprehension yields one name per build type, in the order of the choices. */
  lemma PerBuildTypeGroupNames(prefix: string)
    ensures PerBuildTypeGroups(prefix, BUILD_TYPE_CHOICES)
         == [prefix + "DEBUG", prefix + "RELEASE", prefix + "RELWITHDEBINFO", prefix + "MINSIZEREL"]
  {
    UpperedChoices();
  }

  /** The generated list is exactly the eleven CMake variable names, in this order. */
  lemma GroupNames()
    ensures COMPILER_FLAGS_GROUPS == [
      "CMAKE_C_FLAGS",
      "CMAKE_C_FLAGS_DEBUG", "CMAKE_C_FLAGS_RELEASE",
      "CMAKE_C_FLAGS_RELWITHDEBINFO", "CMAKE_C_FLAGS_MINSIZEREL",
      "CMAKE_CXX_FLAGS",
      "CMAKE_CXX_FLAGS_DEBUG", "CMAKE_CXX_FLAGS_RELEASE",
      "CMAKE_CXX_FLAGS_RELWITHDEBINFO", "CMAKE_CXX_FLAGS_MINSIZEREL",
      "CMAKE_EXE_LINKER_FLAGS"]
  {
    PerBuildTypeGroupNames(C_FLAGS + "_");
    PerBuildTypeGroupNames(CXX_FLAGS + "_");
    assert C_FLAGS + "_" + "DEBUG" == "CMAKE_C_FLAGS_DEBUG";
    assert C_FLAGS + "_" + "RELEASE" == "CMAKE_C_FLAGS_RELEASE";
    assert C_FLAGS + "_" + "RELWITHDEBINFO" == "CMAKE_C_FLAGS_RELWITHDEBINFO";
    assert C_FLAGS + "_" + "MINSIZEREL" == "CMAKE_C_FLAGS_MINSIZEREL";
    assert CXX_FLAGS + "_" + "DEBUG" == "CMAKE_CXX_FLAGS_DEBUG";
    assert CXX_FLAGS + "_" + "RELEASE" == "CMAKE_CXX_FLAGS_RELEASE";
    assert CXX_FLAGS + "_" + "RELWITHDEBINFO" == "CMAKE_CXX_FLAGS_RELWITHDEBINFO";
    assert CXX_FLAGS + "_" + "MINSIZEREL" == "CMAKE_CXX_FLAGS_MINSIZEREL";
  }

  /** No group name is listed twice. */
  lemma GroupNamesDistinct()
    ensures forall i, j | 0 <= i < j < |COMPILER_FLAGS_GROUPS| ::
      COMPILER_FLAGS_GROUPS[i] != COMPILER_FLAGS_GROUPS[j]
  {
    GroupNames();
  }

  /** A group named after a build type: CMAKE_C_FLAGS_<B> or CMAKE_CXX_FLAGS_<B>. */
  predicate IsBuildTypeGroup(group: string) {
    group in COMPILER_FLAGS_GROUPS && group !in {C_FLAGS, CXX_FLAGS, LINKER_FLAGS}
  }

  /** The group that holds the flags a language uses in every build type. */
  function LanguageGroup(language: string): string
    requires language in LANGUAGES
  {
    if language == "C" then C_FLAGS else CXX_FLAGS
  }

  /** The group generated from the k-th build-type choice for a language. */
  lemma {:induction false} BuildTypeGroupOf(k: nat, language: string)
    requires k < |BUILD_TYPE_CHOICES| && language in LANGUAGES
    ensures var group := LanguageGroup(language) + "_" + Upper(BUILD_TYPE_CHOICES[k]);
      && IsBuildTypeGroup(group)
      && RPartition(group, '_').2 == Upper(BUILD_TYPE_CHOICES[k])
  {
    var b := Upper(BUILD_TYPE_CHOICES[k]);
    UpperedChoices();
    PerBuildTypeGroupNames(C_FLAGS + "_");
    PerBuildTypeGroupNames(CXX_FLAGS + "_");
    assert '_' !in b;
    RPartitionAtLast(LanguageGroup(language), '_', b);
  }

  /**
   * The text after the last underscore of a build-type group is a build-type key
   * other than NONE.
   */
  lemma {:induction false} GroupSuffixIsBuildType(group: string)
    requires IsBuildTypeGroup(group)
    ensures RPartition(group, '_').2 in BUILD_TYPE
    ensures RPartition(group, '_').2 != "NONE"
  {
    var i :| 0 <= i < |COMPILER_FLAGS_GROUPS| && COMPILER_FLAGS_GROUPS[i] == group;
    assert i != 0 && i != 5 && i != 10;
    var k := if i < 5 then i - 1 else i - 6;
    var language := if i < 5 then "C" else "CXX";
    assert group == LanguageGroup(language) + "_" + Upper(BUILD_TYPE_CHOICES[k]);
    BuildTypeGroupOf(k, language);
    UpperedChoices();
  }

  /**
   * What the script prints for a compiler and an output group that the argument
   * parser has accepted: the linker flag, the space-joined flags common to all build
   * types of a language, or the space-joined flags of one build type.
   */
  function Render(compiler: string, group: string, strict: bool := true): string
    requires compiler in COMPILER_CHOICES && group in COMPILER_FLAGS_GROUPS
  {
    UpperedCompilers();
    var c := Upper(compiler);
    if group == LINKER_FLAGS then
      TARGET[c]["LINKER"].linker
    else if group == C_FLAGS then
      Join(" ", General(strict) + LANG["C"] + TARGET[c]["C"].flags)
    else if group == CXX_FLAGS then
      Join(" ", General(strict) + LANG["CXX"] + TARGET[c]["CXX"].flags)
    else
      GroupSuffixIsBuildType(group);
      var buildType := RPartition(group, '_').2;
      Join(" ", BUILD_TYPE[buildType])
  }

  /** The linker group prints the compiler's linker entry as it is. */
  lemma RenderLinker(compiler: string, strict: bool)
    requires compiler in COMPILER_CHOICES
    ensures Upper(compiler) in TARGET_NAMES
    ensures Render(compiler, LINKER_FLAGS, strict) == TARGET[Upper(compiler)]["LINKER"].linker
    ensures compiler == "gcc" ==> Render(compiler, LINKER_FLAGS, strict) == ""
    ensures compiler == "clang" ==> Render(compiler, LINKER_FLAGS, strict) == "-fuse-ld=lld"
  {
    UpperedCompilers();
  }

  /**
   * CMAKE_C_FLAGS and CMAKE_CXX_FLAGS print the lookup for build type NONE, whose
   * flag list is empty, and the printed words are exactly that lookup's flags.
   */
  lemma RenderLanguageGroup(compiler: string, language: string, strict: bool)
    requires compiler in COMPILER_CHOICES && language in LANGUAGES
    ensures GetOptionsFor(compiler, "NONE", language, strict).Ok?
    ensures var flags := GetOptionsFor(compiler, "NONE", language, strict).value;
      && Render(compiler, LanguageGroup(language), strict) == Join(" ", flags)
      && Split(Render(compiler, LanguageGroup(language), strict), ' ') == flags
  {
    UpperedCompilers();
    UpperByChars("NONE", "NONE");
    var flags := GetOptionsFor(compiler, "NONE", language, strict).value;
    assert flags == General(strict) + LANG[language] + TARGET[Upper(compiler)][language].flags;
    assert flags != [] by {
      assert |General(strict)| > 0;
    }
    OptionsWellFormed(compiler, "NONE", language, strict);
    SplitJoin(flags, ' ');
  }

  /**
   * A build-type group prints the flags of the build type named after its last
   * underscore, whatever the compiler and mode, and the printed words are exactly
   * that list.
   */
  lemma RenderBuildTypeGroup(compiler: string, group: string, strict: bool)
    requires compiler in COMPILER_CHOICES && IsBuildTypeGroup(group)
    ensures RPartition(group, '_').2 in BUILD_TYPE
    ensures var flags := BUILD_TYPE[RPartition(group, '_').2];
      && Render(compiler, group, strict) == Join(" ", flags)
      && Split(Render(compiler, group, strict), ' ') == flags
  {
    GroupSuffixIsBuildType(group);
    BuildTypeFlagsNonEmpty();
    var flags := BUILD_TYPE[RPartition(group, '_').2];
    BuildTypeFlagsWellFormed();
    SplitJoin(flags, ' ');
  }

  /**
   * CMake passes CMAKE_<LANG>_FLAGS followed by CMAKE_<LANG>_FLAGS_<BUILD TYPE> to
   * the compiler: the two printed strings, joined by a space, are the full lookup
   * for that compiler, build type and language.
   */
  lemma {:induction false} CMakeComposition(compiler: string, k: nat, language: string, strict: bool)
    requires compiler in COMPILER_CHOICES && k < |BUILD_TYPE_CHOICES| && language in LANGUAGES
    ensures var buildType := BUILD_TYPE_CHOICES[k];
      var group := LanguageGroup(language) + "_" + Upper(buildType);
      && group in COMPILER_FLAGS_GROUPS
      && GetOptionsFor(compiler, buildType, language, strict).Ok?
      && Render(compiler, LanguageGroup(language), strict) + " " + Render(compiler, group, strict)
         == Join(" ", GetOptionsFor(compiler, buildType, language, strict).value)
  {
    var buildType := BUILD_TYPE_CHOICES[k];
    var b := Upper(buildType);
    var group := LanguageGroup(language) + "_" + b;
    UpperedChoices();
    UpperedCompilers();
    BuildTypeGroupOf(k, language);
    RenderLanguageGroup(compiler, language, strict);
    RenderBuildTypeGroup(compiler, group, strict);
    assert GetOptionsFor(compiler, buildType, language, strict).Ok?;
    OptionsExtendNone(compiler, buildType, language, strict);
    var common := GetOptionsFor(compiler, "NONE", language, strict).value;
    assert BUILD_TYPE[b] != [];
    JoinAppend(" ", common, BUILD_TYPE[b]);
  }

  /**
   * The three fixed groups end in FLAGS, which is no build type: the dispatch has to
   * recognise them before it falls back to the build-type branch.
   */
  lemma FixedGroupsAreNotBuildTypes()
    ensures forall g | g in {C_FLAGS, CXX_FLAGS, LINKER_FLAGS} :: RPartition(g, '_').2 !in BUILD_TYPE
  {
    assert C_FLAGS == "CMAKE_C" + "_" + "FLAGS";
    assert CXX_FLAGS == "CMAKE_CXX" + "_" + "FLAGS";
    assert LINKER_FLAGS == "CMAKE_EXE_LINKER" + "_" + "FLAGS";
    RPartitionAtLast("CMAKE_C", '_', "FLAGS");
    RPartitionAtLast("CMAKE_CXX", '_', "FLAGS");
    RPartitionAtLast("CMAKE_EXE_LINKER", '_', "FLAGS");
  }

  /** No strict-only flag is enabled, so relaxed mode prints the same text. */
  lemma RelaxedPrintsTheSame(compiler: string, group: string)
    requires compiler in COMPILER_CHOICES && group in COMPILER_FLAGS_GROUPS
    ensures Render(compiler, group, false) == Render(compiler, group, true) == Render(compiler, group)
  {
    StrictMakesNoDifference();
  }

  /** The language groups never print an empty string. */
  lemma LanguageGroupNonEmpty(compiler: string, language: string, strict: bool)
    requires compiler in COMPILER_CHOICES && language in LANGUAGES
    ensures Render(compiler, LanguageGroup(language), strict) != ""
  {
    RenderLanguageGroup(compiler, language, strict);
    OptionsWellFormed(compiler, "NONE", language, strict);
    OptionsExtendNone(compiler, "NONE", language, strict);
    JoinNonEmpty(" ", GetOptionsFor(compiler, "NONE", language, strict).value);
  }

  /** The build-type groups never print an empty string. */
  lemma BuildTypeGroupNonEmpty(compiler: string, group: string, strict: bool)
    requires compiler in COMPILER_CHOICES && IsBuildTypeGroup(group)
    ensures Render(compiler, group, strict) != ""
  {
    GroupSuffixIsBuildType(group);
    var buildType := RPartition(group, '_').2;
    var flags := BUILD_TYPE[buildType];
    BuildTypeFlagsNonEmpty();
    BuildTypeFlagsWellFormed();
    assert flags != [] && WellFormedFlags(flags);
    assert flags[0] in flags;
    JoinNonEmpty(" ", flags);
    RenderBuildTypeGroup(compiler, group, strict);
  }

  /** The printed text is empty exactly for the GCC linker group. */
  lemma RenderEmptyIff(compiler: string, group: string, strict: bool)
    requires compiler in COMPILER_CHOICES && group in COMPILER_FLAGS_GROUPS
    ensures Render(compiler, group, strict) == "" <==> compiler == "gcc" && group == LINKER_FLAGS
  {
    if group == LINKER_FLAGS {
      RenderLinker(compiler, strict);
    } else if group == C_FLAGS {
      LanguageGroupNonEmpty(compiler, "C", strict);
    } else if group == CXX_FLAGS {
      LanguageGroupNonEmpty(compiler, "CXX", strict);
    } else {
      BuildTypeGroupNonEmpty(compiler, group, strict);
    }
  }
}
