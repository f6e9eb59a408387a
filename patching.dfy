/**
 * The srpmproc importer's patch step (pv2/srpmproc/rpm.py): which patch
 * configurations are applied and in what order, branch-name defaulting and
 * the fault code the import ends with. Git checkouts, cloning and the
 * directory listing are parameters: `mainFound`, `branchFound` and
 * `packageFound` are the names the non-recursive search returned, and `run`
 * says whether running a configuration raised.
 */
module Patching {
  import opened Wrappers
  import opened Errors
  import opened Lines

  /** `__find_single_yaml`: the only match, no match, or an error for several. */
  function FindSingleYaml(found: seq<string>): (r: Result<Option<string>, Error>)
    ensures r.Success? <==> |found| <= 1
    ensures r.Success? ==> (r.value.Some? <==> |found| == 1)
    ensures r.Success? && r.value.Some? ==> r.value.value == found[0]
    // TooManyFilesError is given one argument, so Python raises TypeError instead
    ensures r.Failure? ==> r.error == MissingReason("TooManyFilesError")
  {
    if |found| == 1 then Success(Some(found[0]))
    else if |found| > 1 then Failure(MissingReason("TooManyFilesError"))
    else Success(None)
  }

  /** Runs configurations in order until one raises: the ones that completed, and the error. */
  function ApplyConfigs(paths: seq<string>, run: string -> Option<Error>): (r: (seq<string>, Option<Error>))
    ensures r.0 <= paths
    ensures r.1.None? ==> r.0 == paths
    ensures r.1.Some? ==> |r.0| < |paths| && run(paths[|r.0|]) == r.1
  {
    if paths == [] then ([], None)
    else if run(paths[0]).Some? then ([], run(paths[0]))
    else
      var rest := ApplyConfigs(paths[1..], run);
      ([paths[0]] + rest.0, rest.1)
  }

  /** The main-branch configurations collected before the apply loop, and whether a branch file exists. */
  function Collected(mainRef: bool, mainFound: seq<string>, branchFound: seq<string>)
    : (r: Result<(seq<string>, bool), Error>)
  {
    if !mainRef then Success(([], false))
    else match FindSingleYaml(mainFound)
      case Failure(e) => Failure(e)
      case Success(mainYaml) =>
        match FindSingleYaml(branchFound)
        case Failure(e) => Failure(e)
        case Success(branchYaml) =>
          var list := (if mainYaml.Some? then [mainYaml.value] else [])
                      + (if branchYaml.Some? then [branchYaml.value] else []);
          Success((list, branchYaml.Some?))
  }

  /** What `__perform_patch` applies (in order) and what it returns or raises. */
  datatype PatchRun = PatchRun(applied: seq<string>, result: Result<bool, Error>)

  function PerformPatchSpec(mainRef: bool, destRef: bool, mainFound: seq<string>, branchFound: seq<string>,
                            packageFound: seq<string>, run: string -> Option<Error>): PatchRun
  {
    match Collected(mainRef, mainFound, branchFound)
    case Failure(e) => PatchRun([], Failure(e))
    case Success(c) =>
      var (applied, err) := ApplyConfigs(c.0, run);
      var patched := c.0 != [];
      if err.Some? then PatchRun(applied, Failure(err.value))
      else if !destRef || c.1 then PatchRun(applied, Success(patched))
      else match FindSingleYaml(packageFound)
        case Failure(e) => PatchRun(applied, Failure(e))
        case Success(None) => PatchRun(applied, Success(patched))
        case Success(Some(p)) =>
          if run(p).Some? then PatchRun(applied, Failure(run(p).value))
          else PatchRun(applied + [p], Success(true))
  }

  lemma ApplyConfigsStep(paths: seq<string>, i: nat, run: string -> Option<Error>)
    requires i < |paths| && run(paths[i]).None?
    ensures ApplyConfigs(paths[i..], run) == ([paths[i]] + ApplyConfigs(paths[i + 1..], run).0,
                                              ApplyConfigs(paths[i + 1..], run).1)
  {
    assert paths[i..][1..] == paths[i + 1..];
  }

  /** The apply loop of `__perform_patch` over the collected list. */
  method ApplyList(list: seq<string>, run: string -> Option<Error>) returns (applied: seq<string>, err: Option<Error>)
    ensures (applied, err) == ApplyConfigs(list, run)
  {
    applied := [];
    var i := 0;
    assert list[i..] == list;
    while i < |list|
      invariant 0 <= i <= |list|
      invariant ApplyConfigs(list, run).0 == applied + ApplyConfigs(list[i..], run).0
      invariant ApplyConfigs(list, run).1 == ApplyConfigs(list[i..], run).1
    {
      var outcome := run(list[i]);
      if outcome.Some? {
        assert list[i..][0] == list[i];
        assert applied + ApplyConfigs(list[i..], run).0 == applied + [];
        assert applied + [] == applied;
        return applied, outcome;
      }
      ApplyConfigsStep(list, i, run);
      Regroup(applied, [list[i]], ApplyConfigs(list[i + 1..], run).0);
      applied := applied + [list[i]];
      i := i + 1;
    }
    assert list[i..] == [];
    assert applied + [] == applied;
    return applied, None;
  }

  /** The first part of `__perform_patch`: main.yml, then <dest_branch>.yml, from the main branch. */
  method CollectConfigs(mainRef: bool, mainFound: seq<string>, branchFound: seq<string>)
    returns (r: Result<(seq<string>, bool), Error>)
    ensures r == Collected(mainRef, mainFound, branchFound)
  {
    if !mainRef {
      return Success(([], false));
    }
    var patchConfigList: seq<string> := [];
    var mainYaml := FindSingleYaml(mainFound);
    if mainYaml.Failure? {
      return Failure(mainYaml.error);
    }
    if mainYaml.value.Some? {
      patchConfigList := [mainYaml.value.value];
    }
    var branchYaml := FindSingleYaml(branchFound);
    if branchYaml.Failure? {
      return Failure(branchYaml.error);
    }
    if branchYaml.value.Some? {
      patchConfigList := patchConfigList + [branchYaml.value.value];
    } else {
      assert patchConfigList + [] == patchConfigList;
    }
    r := Success((patchConfigList, branchYaml.value.Some?));
  }

  /**
   * `__perform_patch`: with the main branch present, main.yml then
   * <dest_branch>.yml; then, when the destination branch exists and no branch
   * file was found, <package>.yml from the destination branch.
   */
  method PerformPatch(mainRef: bool, destRef: bool, mainFound: seq<string>, branchFound: seq<string>,
                      packageFound: seq<string>, run: string -> Option<Error>)
    returns (applied: seq<string>, r: Result<bool, Error>)
    ensures PatchRun(applied, r) == PerformPatchSpec(mainRef, destRef, mainFound, branchFound, packageFound, run)
  {
    var collected := CollectConfigs(mainRef, mainFound, branchFound);
    if collected.Failure? {
      return [], Failure(collected.error);
    }
    var (patchConfigList, branchYamlExists) := collected.value;
    var err;
    applied, err := ApplyList(patchConfigList, run);
    if err.Some? {
      return applied, Failure(err.value);
    }
    var patched := patchConfigList != [];
    if destRef && !branchYamlExists {
      var packageYaml := FindSingleYaml(packageFound);
      if packageYaml.Failure? {
        return applied, Failure(packageYaml.error);
      }
      if packageYaml.value.Some? {
        var outcome := run(packageYaml.value.value);
        if outcome.Some? {
          return applied, Failure(outcome.value);
        }
        applied := applied + [packageYaml.value.value];
        patched := true;
      }
    }
    r := Success(patched);
  }

  /** `__perform_patch` returns true exactly when at least one configuration was run. */
  lemma PatchedIffApplied(mainRef: bool, destRef: bool, mainFound: seq<string>, branchFound: seq<string>,
                          packageFound: seq<string>, run: string -> Option<Error>)
    requires PerformPatchSpec(mainRef, destRef, mainFound, branchFound, packageFound, run).result.Success?
    ensures var p := PerformPatchSpec(mainRef, destRef, mainFound, branchFound, packageFound, run);
            p.result.value <==> p.applied != []
  {
  }

  /** Every configuration applied is one of the files the searches returned. */
  lemma AppliedComeFromSearches(mainRef: bool, destRef: bool, mainFound: seq<string>, branchFound: seq<string>,
                                packageFound: seq<string>, run: string -> Option<Error>)
    ensures var p := PerformPatchSpec(mainRef, destRef, mainFound, branchFound, packageFound, run);
            |p.applied| <= 2 &&
            forall x :: x in p.applied ==> x in mainFound || x in branchFound || x in packageFound
  {
  }

  /** With main.yml and <dest_branch>.yml both present and applying cleanly, they run in that order and <package>.yml is never consulted. */
  lemma MainThenBranch(destRef: bool, mainFound: seq<string>, branchFound: seq<string>,
                       packageFound: seq<string>, run: string -> Option<Error>)
    requires |mainFound| == 1 && |branchFound| == 1
    requires run(mainFound[0]).None? && run(branchFound[0]).None?
    ensures PerformPatchSpec(true, destRef, mainFound, branchFound, packageFound, run)
         == PatchRun([mainFound[0], branchFound[0]], Success(true))
  {
    var list := [mainFound[0], branchFound[0]];
    assert list[1..][1..] == [];
  }

  /**
   * <package>.yml is applied only when the destination branch exists and no
   * <dest_branch>.yml was found; it then comes last.
   */
  lemma PackageFileRule(mainRef: bool, destRef: bool, mainFound: seq<string>, branchFound: seq<string>,
                        packageFound: seq<string>, run: string -> Option<Error>)
    requires Collected(mainRef, mainFound, branchFound).Success?
    ensures var c := Collected(mainRef, mainFound, branchFound).value;
            var p := PerformPatchSpec(mainRef, destRef, mainFound, branchFound, packageFound, run);
            |p.applied| > |c.0| ==>
              destRef && !c.1 && |packageFound| == 1 && p.applied == c.0 + [packageFound[0]]
  {
  }

  /** Without the main branch nothing from it is applied: only <package>.yml can be. */
  lemma NoMainBranch(destRef: bool, mainFound: seq<string>, branchFound: seq<string>,
                     packageFound: seq<string>, run: string -> Option<Error>)
    ensures var p := PerformPatchSpec(false, destRef, mainFound, branchFound, packageFound, run);
            p.applied == [] || (destRef && |packageFound| == 1 && p.applied == [packageFound[0]])
  {
  }

  /** An unset (falsy) branch becomes prefix + release + suffix. */
  function BranchName(given: Option<string>, prefix: string, release: string, suffix: string): (r: string)
    ensures given.Some? && given.value != "" ==> r == given.value
    ensures given.None? || given.value == "" ==> r == prefix + release + suffix
  {
    if given.Some? && given.value != "" then given.value else prefix + release + suffix
  }

  const DefaultSourcePrefix := "c"
  const DefaultDestPrefix := "r"
  const DefaultSuffix := ""

  /**
   * An importer given neither branch, with the default prefixes and
   * suffixes, reads from "c<release>" and pushes to "r<release>": two
   * distinct branches, whatever the release.
   */
  lemma DefaultBranches(release: string, sourceBranch: Option<string>, destBranch: Option<string>)
    requires sourceBranch.None? || sourceBranch == Some("")
    requires destBranch.None? || destBranch == Some("")
    ensures BranchName(sourceBranch, DefaultSourcePrefix, release, DefaultSuffix) == "c" + release
    ensures BranchName(destBranch, DefaultDestPrefix, release, DefaultSuffix) == "r" + release
    ensures BranchName(sourceBranch, DefaultSourcePrefix, release, DefaultSuffix)
         != BranchName(destBranch, DefaultDestPrefix, release, DefaultSuffix)
  {
    assert ("c" + release)[0] == 'c' && ("r" + release)[0] == 'r';
  }

  /** The exception classes `srpmproc_import` reports with their own fault code. */
  predicate Listed(k: Kind)
  {
    k in {ConfigurationError, FileNotFound, TooManyFilesError, NotAppliedError,
          PatchConfigTypeError, PatchConfigValueError, GitInitError, GitApplyError}
  }

  /** How `srpmproc_import` ends: its fault code, whether it exits, and the clone paths it cleans up. */
  datatype ImportEnd = ImportEnd(fault: int, exits: bool, cleaned: seq<string>)

  /**
   * `srpmproc_import`'s error handling. `failure` is the exception the import
   * raised, if any; `missingCode` stands for the codes whose constants are not
   * defined.
   */
  function ImportOutcome(failure: Option<Error>, missingCode: Kind -> int,
                         sourcePath: string, destPath: string, patchPath: string): (r: ImportEnd)
    ensures r.cleaned == [sourcePath, destPath, patchPath]
    ensures r.exits <==> r.fault > 0
    ensures failure.None? ==> r.fault == 0 && !r.exits
    ensures failure.Some? && !Listed(failure.value.kind) ==> r.fault == 2 && r.exits
    ensures failure.Some? && Listed(failure.value.kind) && FaultCode(failure.value.kind).Some? ==>
              r.fault == FaultCode(failure.value.kind).value && r.exits
  {
    var fault :=
      if failure.None? then 0
      else if Listed(failure.value.kind) then
        (if FaultCode(failure.value.kind).Some? then FaultCode(failure.value.kind).value
         else missingCode(failure.value.kind))
      else 2;
    ImportEnd(fault, fault > 0, [sourcePath, destPath, patchPath])
  }

  /** Several matching configuration files end the import with the generic fault 2, not a TooManyFilesError code. */
  lemma DuplicateYamlIsUnexpected(found: seq<string>, missingCode: Kind -> int, s: string, d: string, p: string)
    requires |found| > 1
    ensures ImportOutcome(Some(FindSingleYaml(found).error), missingCode, s, d, p).fault == 2
  {
  }
}
