/**
 * The flag table of compileroptions.py and the functions that look flags up in it.
 * The table's top-level entries are only ever read with literal keys, so each one is
 * its own constant; the inner mappings keep their string keys because callers index
 * them with arbitrary strings.
 */
module CompilerOptions {
  import opened Wrappers
  import opened PyStr

  /** What a failed lookup raises in Python. */
  datatype PyError =
    | KeyError(key: string)  // a dictionary lookup with a missing key
    | TypeError              // `list + str`, which the table never lets happen

  /** A value in a compiler's entry: a flag list, or the single linker flag string. */
  datatype TargetValue = FlagList(flags: seq<string>) | Linker(linker: string)

  const BUILD_TYPE: map<string, seq<string>> := map[
    "DEBUG" := ["-Winline", "-g"],
    "RELEASE" := ["-O3", "-DNDEBUG"],
    "RELWITHDEBINFO" := ["-O2", "-g", "-DNDEBUG"],
    "MINSIZEREL" := ["-Os", "-DNDEBUG"],
    "NONE" := []
  ]

  const TARGET: map<string, map<string, TargetValue>> := map[
    "GCC" := map[
      "C" := FlagList(["-Wlogical-op"]),
      "CXX" := FlagList(["-Wlogical-op", "-Wstrict-null-sentinel", "-Wnoexcept"]),
      "LINKER" := Linker("")
    ],
    "CLANG" := map[
      "C" := FlagList(["-Wextra-semi", "-Wextra-semi-stmt"]),
      "CXX" := FlagList(["-Wextra-semi", "-Wextra-semi-stmt"]),
      "LINKER" := Linker("-fuse-ld=lld")
    ]
  ]

  const LANG: map<string, seq<string>> := map[
    "CXX" := ["-Wctor-dtor-privacy", "-Wsign-promo", "-Woverloaded-virtual", "-Wold-style-cast"],
    "C" := []
  ]

  /** Flags added only in strict mode; the one candidate, -Werror, is disabled. */
  const GENERAL_STRICT: seq<string> := []

  const GENERAL: seq<string> := [
    "-Wall", "-Wconversion", "-Wfloat-equal", "-Wpedantic", "-Wpointer-arith",
    "-Wswitch-default", "-Wpacked", "-Wextra", "-Winvalid-pch",
    "-Wmissing-field-initializers", "-Wunreachable-code", "-Wcast-align",
    "-Wcast-qual", "-Wdisabled-optimization", "-Wformat=2", "-Wformat-nonliteral",
    "-Wuninitialized", "-Wformat-security", "-Wformat-y2k", "-Winit-self",
    "-Wmissing-declarations", "-Wmissing-include-dirs", "-Wredundant-decls",
    "-Wstrict-overflow=5", "-Wundef", "-Wno-unused"
  ]

  /** The keys a lookup accepts, written out independently of the table. */
  const TARGET_NAMES: set<string> := {"GCC", "CLANG"}
  const BUILD_TYPE_NAMES: set<string> := {"DEBUG", "RELEASE", "RELWITHDEBINFO", "MINSIZEREL", "NONE"}
  const LANGUAGES: set<string> := {"C", "CXX"}

  /** Every flag is a single non-empty word. */
  predicate WellFormedFlags(xs: seq<string>) {
    forall f | f in xs :: f != "" && ' ' !in f
  }

  /** The table has exactly the enumerated keys, languages map to flag lists and LINKER to a string. */
  lemma TableShape()
    ensures BUILD_TYPE.Keys == BUILD_TYPE_NAMES
    ensures TARGET.Keys == TARGET_NAMES
    ensures LANG.Keys == LANGUAGES
    ensures forall t | t in TARGET :: TARGET[t].Keys == LANGUAGES + {"LINKER"}
    ensures forall t, l | t in TARGET && l in LANGUAGES :: TARGET[t][l].FlagList?
    ensures forall t | t in TARGET :: TARGET[t]["LINKER"].Linker?
  {
  }

  // The general list is checked a few entries at a time; one query for all of it is too costly.
  lemma GeneralFlagWellFormed0(i: nat)
    requires 0 <= i < 7
    ensures GENERAL[i] != "" && ' ' !in GENERAL[i]
  {
  }

  lemma GeneralFlagWellFormed1(i: nat)
    requires 7 <= i < 14
    ensures GENERAL[i] != "" && ' ' !in GENERAL[i]
  {
  }

  lemma GeneralFlagWellFormed2(i: nat)
    requires 14 <= i < 20
    ensures GENERAL[i] != "" && ' ' !in GENERAL[i]
  {
  }

  lemma GeneralFlagWellFormed3(i: nat)
    requires 20 <= i < 26
    ensures GENERAL[i] != "" && ' ' !in GENERAL[i]
  {
  }

  /** The general flags are single non-empty words. */
  lemma GeneralFlagsWellFormed()
    ensures WellFormedFlags(GENERAL_STRICT) && WellFormedFlags(GENERAL)
  {
    forall f | f in GENERAL
      ensures f != "" && ' ' !in f
    {
      var i :| 0 <= i < |GENERAL| && GENERAL[i] == f;
      if i < 7 {
        GeneralFlagWellFormed0(i);
      } else if i < 14 {
        GeneralFlagWellFormed1(i);
      } else if i < 20 {
        GeneralFlagWellFormed2(i);
      } else {
        GeneralFlagWellFormed3(i);
      }
    }
  }

  /** The build-type flags are single non-empty words. */
  lemma BuildTypeFlagsWellFormed()
    ensures forall b | b in BUILD_TYPE :: WellFormedFlags(BUILD_TYPE[b])
  {
  }

  /** The flag lists of one compiler's entry are single non-empty words. */
  predicate WellFormedEntry(entry: map<string, TargetValue>) {
    forall l | l in entry && entry[l].FlagList? :: WellFormedFlags(entry[l].flags)
  }

  lemma GccEntryWellFormed()
    ensures WellFormedEntry(TARGET["GCC"])
  {
  }

  lemma ClangEntryWellFormed()
    ensures WellFormedEntry(TARGET["CLANG"])
  {
  }

  /** Every build type other than NONE adds at least one flag. */
  lemma BuildTypeFlagsNonEmpty()
    ensures forall b | b in BUILD_TYPE && b != "NONE" :: BUILD_TYPE[b] != []
  {
  }

  lemma LangFlagsWellFormed()
    ensures forall l | l in LANG :: WellFormedFlags(LANG[l])
  {
    assert WellFormedFlags(LANG["CXX"]);
  }

  /** The language and compiler flags are single non-empty words. */
  lemma TargetFlagsWellFormed()
    ensures forall l | l in LANG :: WellFormedFlags(LANG[l])
    ensures forall t | t in TARGET :: WellFormedEntry(TARGET[t])
  {
    LangFlagsWellFormed();
    GccEntryWellFormed();
    ClangEntryWellFormed();
  }

  /** No flag in the table is empty or contains a space. */
  lemma TableFlagsWellFormed()
    ensures WellFormedFlags(GENERAL_STRICT) && WellFormedFlags(GENERAL)
    ensures forall l | l in LANG :: WellFormedFlags(LANG[l])
    ensures forall b | b in BUILD_TYPE :: WellFormedFlags(BUILD_TYPE[b])
    ensures forall t | t in TARGET :: WellFormedEntry(TARGET[t])
  {
    GeneralFlagsWellFormed();
    BuildTypeFlagsWellFormed();
    TargetFlagsWellFormed();
  }

  /** `general(strict)`: the general flags, preceded by the strict-only ones in strict mode. */
  function General(strict: bool): (r: seq<string>)
    ensures |r| == (if strict then |GENERAL_STRICT| else 0) + |GENERAL|
    ensures r[|r| - |GENERAL|..] == GENERAL
    ensures strict ==> r[..|GENERAL_STRICT|] == GENERAL_STRICT
  {
    if strict then GENERAL_STRICT + GENERAL else GENERAL
  }

  /** With no strict-only flag enabled, strict and relaxed modes give the same flags. */
  lemma StrictMakesNoDifference()
    ensures General(true) == General(false) == GENERAL
  {
  }

  /**
   * `get_options_for(target, build_type, language, strict)`: general, language,
   * compiler-and-language and build-type flags, in that order. Target and build type
   * are upper-cased, the language is used as given. The lookups fail in Python's
   * left-to-right order, with the missing key.
   */
  function GetOptionsFor(target: string, buildType: string, language: string, strict: bool)
    : (r: Result<seq<string>, PyError>)
    ensures r.Ok? <==>
      Upper(target) in TARGET_NAMES && Upper(buildType) in BUILD_TYPE_NAMES && language in LANGUAGES
    ensures r.Ok? ==>
      r.value == General(strict) + LANG[language] + TARGET[Upper(target)][language].flags
                 + BUILD_TYPE[Upper(buildType)]
    ensures language !in LANGUAGES ==> r == Err(KeyError(language))
    ensures language in LANGUAGES && Upper(target) !in TARGET_NAMES ==> r == Err(KeyError(Upper(target)))
    ensures language in LANGUAGES && Upper(target) in TARGET_NAMES && Upper(buildType) !in BUILD_TYPE_NAMES
      ==> r == Err(KeyError(Upper(buildType)))
  {
    var general := General(strict);
    if language !in LANG then Err(KeyError(language))
    else
      var withLang := general + LANG[language];
      var t := Upper(target);
      if t !in TARGET then Err(KeyError(t))
      else if language !in TARGET[t] then Err(KeyError(language))
      else
        match TARGET[t][language]
        case Linker(_) => Err(TypeError)
        case FlagList(flags) =>
          var withTarget := withLang + flags;
          var b := Upper(buildType);
          if b !in BUILD_TYPE then Err(KeyError(b))
          else Ok(withTarget + BUILD_TYPE[b])
  }

  /** The linker entry can never be concatenated: a lookup never raises TypeError. */
  lemma NeverTypeError(target: string, buildType: string, language: string, strict: bool)
    ensures GetOptionsFor(target, buildType, language, strict) != Err(TypeError)
  {
  }

  /** A successful lookup starts with the general flags and ends with the build-type flags. */
  lemma OptionsFrame(target: string, buildType: string, language: string, strict: bool)
    requires GetOptionsFor(target, buildType, language, strict).Ok?
    ensures var flags := GetOptionsFor(target, buildType, language, strict).value;
      var b := BUILD_TYPE[Upper(buildType)];
      && flags[..|General(strict)|] == General(strict)
      && flags[|flags| - |b|..] == b
      && |flags| == |General(strict)| + |LANG[language]|
                    + |TARGET[Upper(target)][language].flags| + |b|
  {
  }

  /**
   * Every successful lookup is the lookup for build type NONE, which holds the flags
   * shared by all build types, followed by the flags of the requested build type.
   */
  lemma OptionsExtendNone(target: string, buildType: string, language: string, strict: bool)
    requires GetOptionsFor(target, buildType, language, strict).Ok?
    ensures GetOptionsFor(target, "NONE", language, strict).Ok?
    ensures GetOptionsFor(target, buildType, language, strict).value
         == GetOptionsFor(target, "NONE", language, strict).value + BUILD_TYPE[Upper(buildType)]
    ensures GetOptionsFor(target, "NONE", language, strict).value != []
  {
    UpperByChars("NONE", "NONE");
    assert |General(strict)| > 0;
  }

  /** Every flag returned by a lookup is a single non-empty word. */
  lemma OptionsWellFormed(target: string, buildType: string, language: string, strict: bool)
    requires GetOptionsFor(target, buildType, language, strict).Ok?
    ensures WellFormedFlags(GetOptionsFor(target, buildType, language, strict).value)
  {
    TableFlagsWellFormed();
  }

  /** Target and build type are matched ignoring ASCII case. */
  lemma {:induction false} LookupIgnoresCase(
    target: string, target': string, buildType: string, buildType': string,
    language: string, strict: bool)
    requires SameIgnoringCase(target, target') && SameIgnoringCase(buildType, buildType')
    ensures GetOptionsFor(target, buildType, language, strict)
         == GetOptionsFor(target', buildType', language, strict)
  {
    UpperEqualIff(target, target');
    UpperEqualIff(buildType, buildType');
  }

  /** "gcc", "Gcc" and "GCC" name the same compiler; "cxx" is not a language, "CXX" is. */
  lemma CaseExamples()
    ensures GetOptionsFor("gcc", "debug", "CXX", true) == GetOptionsFor("Gcc", "Debug", "CXX", true)
    ensures GetOptionsFor("Gcc", "Debug", "CXX", true) == GetOptionsFor("GCC", "DEBUG", "CXX", true)
    ensures GetOptionsFor("GCC", "DEBUG", "CXX", true).Ok?
    ensures GetOptionsFor("gcc", "debug", "cxx", true) == Err(KeyError("cxx"))
  {
    UpperByChars("gcc", "GCC");
    UpperByChars("Gcc", "GCC");
    UpperByChars("GCC", "GCC");
    UpperByChars("debug", "DEBUG");
    UpperByChars("Debug", "DEBUG");
    UpperByChars("DEBUG", "DEBUG");
  }

  /** `get_cxx_options_for(target, build_type, strict=True)`: a C++ lookup. */
  function GetCxxOptionsFor(target: string, buildType: string, strict: bool := true)
    : (r: Result<seq<string>, PyError>)
    ensures r.Ok? <==> Upper(target) in TARGET_NAMES && Upper(buildType) in BUILD_TYPE_NAMES
    ensures r.Ok? ==>
      r.value == General(strict) + LANG["CXX"] + TARGET[Upper(target)]["CXX"].flags
                 + BUILD_TYPE[Upper(buildType)]
    ensures r.Err? ==> r.error in {KeyError(Upper(target)), KeyError(Upper(buildType))}
    ensures Upper(target) !in TARGET_NAMES ==> r == Err(KeyError(Upper(target)))
    ensures Upper(target) in TARGET_NAMES && Upper(buildType) !in BUILD_TYPE_NAMES
            ==> r == Err(KeyError(Upper(buildType)))
  {
    GetOptionsFor(target, buildType, "CXX", strict)
  }

  /** `get_c_options_for(target, build_type, strict=True)`: a C lookup. */
  function GetCOptionsFor(target: string, buildType: string, strict: bool := true)
    : (r: Result<seq<string>, PyError>)
    ensures r.Ok? <==> Upper(target) in TARGET_NAMES && Upper(buildType) in BUILD_TYPE_NAMES
    ensures r.Ok? ==>
      r.value == General(strict) + LANG["C"] + TARGET[Upper(target)]["C"].flags
                 + BUILD_TYPE[Upper(buildType)]
    ensures r.Err? ==> r.error in {KeyError(Upper(target)), KeyError(Upper(buildType))}
    ensures Upper(target) !in TARGET_NAMES ==> r == Err(KeyError(Upper(target)))
    ensures Upper(target) in TARGET_NAMES && Upper(buildType) !in BUILD_TYPE_NAMES
            ==> r == Err(KeyError(Upper(buildType)))
  {
    GetOptionsFor(target, buildType, "C", strict)
  }

  /** The wrappers are strict by default and fix the language. */
  lemma WrappersDefaultToStrict(target: string, buildType: string)
    ensures GetCxxOptionsFor(target, buildType) == GetOptionsFor(target, buildType, "CXX", true)
    ensures GetCOptionsFor(target, buildType) == GetOptionsFor(target, buildType, "C", true)
  {
  }
}
