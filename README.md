# compiler-options flag table, in Dafny

A model of `conan/exports/compiler-options/compileroptions.py`. The script keeps a
constant table of compiler warning and optimisation flags. The table has four axes:
build type (DEBUG, RELEASE, RELWITHDEBINFO, MINSIZEREL, NONE), compiler (GCC, CLANG),
language (C, CXX) and strictness. The script's functions concatenate slices of that
table. Its command-line entry point prints one CMake variable's worth of flags: the
space-joined flag list, or, for the linker group, the linker flag.

Modules:

- `Wrappers` (`wrappers.dfy`): the `Result` type used for lookups that can fail.
- `PyStr` (`pystr.dfy`): the Python string operations the script relies on.
  - `str.upper()`, restricted to ASCII (`Upper`).
  - `sep.join(xs)` (`Join`) and `s.rpartition(c)` (`RPartition`).
  - `s.split(c)` (`Split`). The script does not call it. It is here as the inverse of
    `Join`: it shows that a printed flag string can be split back on spaces into
    exactly the flag list it came from.
- `CompilerOptions` (`compiler_options.dfy`): the flag table and the lookup functions.
  - The table's top-level entries are always read with literal keys, so each is its own
    constant: `BUILD_TYPE`, `TARGET`, `LANG`, `GENERAL_STRICT`, `GENERAL`.
  - The inner mappings keep their string keys, so a missing key stays representable.
  - A compiler's entry maps `C` and `CXX` to flag lists and `LINKER` to a plain string
    (`TargetValue`).
  - A lookup returns `Err(KeyError(key))` for the first missing key. The order of the
    checks is Python's left-to-right evaluation: language in `LANG`, then the upper-cased
    target, then the upper-cased build type.
  - The `TypeError` case (adding the linker string to a list) is modelled and proved
    unreachable.
- `FlagGroups` (`flag_groups.dfy`): the entry point after argument parsing.
  - The generated list of the eleven output group names.
  - `Render`, which returns the text the script prints for a compiler and a group that
    the argument parser accepted.
  - Lemmas relating each group's output to `GetOptionsFor`.

## Model

| member | source | states |
|---|---|---|
| `PyStr.UpperChar` | conan/exports/compiler-options/compileroptions.py:198-199 | the result is never a lower-case ASCII letter; it differs from the input exactly when the input is a lower-case letter, and then `LowerChar` gives the input back |
| `PyStr.Upper` | conan/exports/compiler-options/compileroptions.py:198-199 | upper-casing keeps the length and leaves no lower-case ASCII letter |
| `PyStr.UpperEqualIff` | conan/exports/compiler-options/compileroptions.py:198-199 | two strings upper-case to the same text exactly when they differ only in the case of ASCII letters (both directions) |
| `PyStr.UpperIdempotent` | conan/exports/compiler-options/compileroptions.py:198-199 | upper-casing an upper-cased string changes nothing |
| `PyStr.Join` | conan/exports/compiler-options/compileroptions.py:276-280 | no ensures of its own; `SplitJoin` (it is undone by splitting), `JoinAppend` (joins of concatenated lists) and `JoinNonEmpty` characterise it |
| `PyStr.JoinAppend` | conan/exports/compiler-options/compileroptions.py:276-280 | joining two non-empty lists equals the two joins with one separator between them |
| `PyStr.JoinNonEmpty` | conan/exports/compiler-options/compileroptions.py:276-280 | a join whose first element is not empty is not empty |
| `PyStr.Split` | conan/exports/compiler-options/compileroptions.py:276-280 | splitting gives at least one piece, no piece holds the separator, and joining the pieces with the separator gives back the input |
| `PyStr.SplitJoin` | conan/exports/compiler-options/compileroptions.py:276-280 | a non-empty list whose elements do not contain the separator is recovered by splitting its join |
| `PyStr.SplitAtSeparator` | conan/exports/compiler-options/compileroptions.py:276-280 | a separator-free piece followed by the separator splits off as the first element |
| `PyStr.RPartition` | conan/exports/compiler-options/compileroptions.py:293 | head + separator + tail is the input; the tail has no separator; the middle is the separator exactly when it occurs; with no occurrence the result is ("", "", s) |
| `PyStr.RPartitionAtLast` | conan/exports/compiler-options/compileroptions.py:293 | rpartition cuts at the last separator: head + c + tail, with c not in tail, gives (head, c, tail) |
| `CompilerOptions.TableShape` | conan/exports/compiler-options/compileroptions.py:8-98 | the table's keys are exactly the enumerated build types, compilers and languages; each compiler maps C and CXX to flag lists and LINKER to a string |
| `CompilerOptions.GeneralFlagsWellFormed` | conan/exports/compiler-options/compileroptions.py:99-183 | every general and strict-only flag is a non-empty word without spaces |
| `CompilerOptions.BuildTypeFlagsNonEmpty` | conan/exports/compiler-options/compileroptions.py:9-41 | every build type except NONE has at least one flag |
| `CompilerOptions.BuildTypeFlagsWellFormed` | conan/exports/compiler-options/compileroptions.py:9-41 | every build-type flag is a non-empty word without spaces |
| `CompilerOptions.TargetFlagsWellFormed` | conan/exports/compiler-options/compileroptions.py:42-98 | every language and compiler flag is a non-empty word without spaces |
| `CompilerOptions.TableFlagsWellFormed` | conan/exports/compiler-options/compileroptions.py:8-184 | no flag list anywhere in the table holds an empty flag or one with a space |
| `CompilerOptions.General` | conan/exports/compiler-options/compileroptions.py:187-191 | the result always ends with the general flags; in strict mode the strict-only flags come first; relaxed mode gives only the general flags |
| `CompilerOptions.StrictMakesNoDifference` | conan/exports/compiler-options/compileroptions.py:187-191 | with the strict-only list empty, strict and relaxed modes both give exactly the general flags |
| `CompilerOptions.GetOptionsFor` | conan/exports/compiler-options/compileroptions.py:194-200 | success exactly when the upper-cased target is GCC or CLANG, the upper-cased build type is one of the five, and the language is C or CXX as given; then general + language + compiler-language + build-type flags; otherwise KeyError of the first missing key in evaluation order |
| `CompilerOptions.NeverTypeError` | conan/exports/compiler-options/compileroptions.py:194-200 | the LINKER string is never concatenated to a flag list: no lookup raises TypeError |
| `CompilerOptions.OptionsFrame` | conan/exports/compiler-options/compileroptions.py:194-200 | a successful lookup starts with the general flags, ends with the build-type flags, and its length is the sum of the four slices |
| `CompilerOptions.OptionsExtendNone` | conan/exports/compiler-options/compileroptions.py:194-200 | every successful lookup is the non-empty NONE lookup followed by the build type's flags |
| `CompilerOptions.OptionsWellFormed` | conan/exports/compiler-options/compileroptions.py:194-200 | every flag a successful lookup returns is a non-empty word without spaces |
| `CompilerOptions.LookupIgnoresCase` | conan/exports/compiler-options/compileroptions.py:197-199 | targets and build types that differ only in ASCII letter case give the same result, failures included |
| `CompilerOptions.CaseExamples` | conan/exports/compiler-options/compileroptions.py:197-199 | "gcc", "Gcc" and "GCC" give the same flags; language "CXX" succeeds and "cxx" fails with KeyError("cxx") |
| `CompilerOptions.GetCxxOptionsFor` | conan/exports/compiler-options/compileroptions.py:203-204 | fails only on an unknown target or build type, never on the language; on success gives the C++ flags for that target and build type; an unknown target is reported before an unknown build type, as in the lookup |
| `CompilerOptions.GetCOptionsFor` | conan/exports/compiler-options/compileroptions.py:207-208 | fails only on an unknown target or build type, never on the language; on success gives the C flags for that target and build type; an unknown target is reported before an unknown build type, as in the lookup |
| `CompilerOptions.WrappersDefaultToStrict` | conan/exports/compiler-options/compileroptions.py:203-208 | called without a mode, the wrappers are the strict lookup for CXX and for C |
| `FlagGroups.PerBuildTypeGroups` | conan/exports/compiler-options/compileroptions.py:218-226 | one name per choice; `PerBuildTypeGroupNames` gives the names themselves, the prefix followed by each upper-cased choice in order |
| `FlagGroups.PerBuildTypeGroupNames` | conan/exports/compiler-options/compileroptions.py:218-226 | the comprehension yields the prefix followed by DEBUG, RELEASE, RELWITHDEBINFO and MINSIZEREL, in that order |
| `FlagGroups.GroupNames` | conan/exports/compiler-options/compileroptions.py:214-228 | the generated group list is exactly the eleven CMake variable names, in order |
| `FlagGroups.GroupNamesDistinct` | conan/exports/compiler-options/compileroptions.py:214-228 | no group name occurs twice in the generated list |
| `FlagGroups.BuildTypeGroupOf` | conan/exports/compiler-options/compileroptions.py:216-228 | the group generated from a build-type choice is an accepted group, and its text after the last underscore is the upper-cased choice |
| `FlagGroups.GroupSuffixIsBuildType` | conan/exports/compiler-options/compileroptions.py:292-294 | for each of the eight build-type groups the text after the last underscore is a build-type key other than NONE, so the lookup in the last branch cannot fail |
| `FlagGroups.FixedGroupsAreNotBuildTypes` | conan/exports/compiler-options/compileroptions.py:272-294 | the three fixed groups end in FLAGS, which is no build type, so they must be dispatched before the build-type branch |
| `FlagGroups.Render` | conan/exports/compiler-options/compileroptions.py:271-294 | no ensures of its own; `RenderLinker`, `RenderLanguageGroup` and `RenderBuildTypeGroup` give its value for each branch of the dispatch, and `RenderEmptyIff` says when it is empty |
| `FlagGroups.RenderEmptyIff` | conan/exports/compiler-options/compileroptions.py:271-294 | for accepted arguments `Render` prints an empty text exactly for the GCC linker group |
| `FlagGroups.LanguageGroupNonEmpty` | conan/exports/compiler-options/compileroptions.py:274-291 | CMAKE_C_FLAGS and CMAKE_CXX_FLAGS never print an empty text |
| `FlagGroups.BuildTypeGroupNonEmpty` | conan/exports/compiler-options/compileroptions.py:292-294 | no build-type group prints an empty text |
| `FlagGroups.RenderLinker` | conan/exports/compiler-options/compileroptions.py:272-273 | the linker group prints the compiler's LINKER entry as it is: "" for gcc, "-fuse-ld=lld" for clang |
| `FlagGroups.RenderLanguageGroup` | conan/exports/compiler-options/compileroptions.py:274-291 | CMAKE_C_FLAGS and CMAKE_CXX_FLAGS print the space-joined lookup for build type NONE, and splitting that text on spaces gives the lookup back |
| `FlagGroups.RenderBuildTypeGroup` | conan/exports/compiler-options/compileroptions.py:292-294 | a build-type group prints the space-joined flags of the build type after its last underscore, whatever the compiler and mode, and splitting that text gives the list back |
| `FlagGroups.CMakeComposition` | conan/exports/compiler-options/compileroptions.py:271-294 | CMAKE_<LANG>_FLAGS, a space and CMAKE_<LANG>_FLAGS_<B> together are the space-joined lookup for that compiler, build type B and language |
| `FlagGroups.RelaxedPrintsTheSame` | conan/exports/compiler-options/compileroptions.py:260-267 | relaxed mode selects the output strict = false; it prints the same as the default strict mode, because no strict-only flag is enabled |

## Left out

- Argument parsing is not modelled (compileroptions.py:212-269). This covers `argparse`, the `choices` checks, the help text and the non-zero exit on bad arguments. It is plumbing around a library. `Render` instead requires what the parser has already checked: the compiler is `gcc` or `clang` and the group is one of the eleven names.
- The mapping of `--relaxed` to `strict` is not modelled. Only its effect is kept: `Render`'s `strict` parameter defaults to true.
- The Python version check (lines 5-6) is not modelled. It is a runtime environment check.
- Printing to standard output is not modelled. `Render` returns the string that would be printed without a trailing newline.
- `PyStr.Upper`: upper-cases ASCII letters only. Python's `str.upper()` also maps non-ASCII characters: dotless `ı` becomes `I` and long `ſ` becomes `S`. So the build type `"relwithdebınfo"` (with a dotless `ı`) succeeds in Python but fails in the model. The argument parser only lets `gcc` and `clang` through, so `Render` is unaffected.
- `CompilerOptions.General`: `general(False)` (line 191) returns the table's own `GENERAL` list object, not a copy, so a caller that mutated the result would change every later lookup. The model works on values and does not capture this aliasing. Nothing in the file mutates a result.
- `str(target)` is not modelled. Targets and build types are strings in the model; Python would also accept any object and convert it first.
- A `KeyError` carries only the missing key. The exception message and the traceback are not modelled.
- Comments and commented-out flags and linkers (for example `-Werror`, `-Wswitch-enum`, the alternative linkers) have no behaviour and are not in the table.
