/**
 * The content linter `validate-content.js`: a `PortfolioValidator` whose
 * checks push messages onto its `errors` and `warnings` lists, and whose
 * exit status depends only on whether `errors` is empty.
 *
 * The regular-expression extraction is taken as done: the checks receive the
 * project names, the achievement URLs and the import statements as lists.
 * Whether `new URL(u)` accepts `u` is the parameter `isValidUrl`; whether a
 * file exists is membership in a set of paths.
 */
module ContentValidation {
  import opened Common

  /** `filter((name, index, arr) => arr.indexOf(name) !== index)` over the first `n` names. */
  function RepeatedBefore(names: seq<string>, n: nat): seq<string>
    requires n <= |names|
  {
    if n == 0 then []
    else RepeatedBefore(names, n - 1) + (if IndexOf(names, names[n - 1]) != Some(n - 1) then [names[n - 1]] else [])
  }

  /** The duplicate list of `validateProjectDuplicates`. */
  function Duplicates(names: seq<string>): seq<string>
  {
    RepeatedBefore(names, |names|)
  }

  /** `indexOf` finds another index exactly when the name already occurred earlier. */
  lemma FirstIndex(names: seq<string>, i: nat)
    requires i < |names|
    ensures IndexOf(names, names[i]) != Some(i) <==> names[i] in names[..i]
  {
    assert names[i] in names;
    if names[i] in names[..i] {
      assert IndexOf(names, names[i]) != Some(i);
    }
  }

  /** The `n`-th name is listed exactly when it already occurred before. */
  lemma RepeatedStep(names: seq<string>, n: nat)
    requires 0 < n <= |names|
    ensures RepeatedBefore(names, n) ==
      RepeatedBefore(names, n - 1) + (if names[n - 1] in names[..n - 1] then [names[n - 1]] else [])
  {
    FirstIndex(names, n - 1);
    if names[n - 1] in names[..n - 1] {
      assert RepeatedBefore(names, n) == RepeatedBefore(names, n - 1) + [names[n - 1]];
    } else {
      assert RepeatedBefore(names, n) == RepeatedBefore(names, n - 1) + [];
    }
  }

  /** The names among the first `n` that already occurred earlier, in order. */
  function Repeats(names: seq<string>, n: nat): seq<string>
    requires n <= |names|
  {
    if n == 0 then []
    else Repeats(names, n - 1) + (if names[n - 1] in names[..n - 1] then [names[n - 1]] else [])
  }

  /** The `indexOf` filter keeps exactly the names that already occurred earlier. */
  lemma {:induction false} RepeatedIsRepeats(names: seq<string>, n: nat)
    requires n <= |names|
    ensures RepeatedBefore(names, n) == Repeats(names, n)
  {
    if n > 0 {
      RepeatedIsRepeats(names, n - 1);
      RepeatedStep(names, n);
    }
  }

  /** Each name is listed once per occurrence after its first. */
  lemma {:induction false} RepeatsCount(names: seq<string>, n: nat, x: string)
    requires n <= |names|
    ensures multiset(Repeats(names, n))[x] ==
      if x in names[..n] then multiset(names[..n])[x] - 1 else 0
  {
    if n > 0 {
      var y := names[n - 1];
      var prev := names[..n - 1];
      RepeatsCount(names, n - 1, x);
      TakeSnoc(names, n);
      assert x in names[..n] <==> x in prev || x == y;
      if y !in prev && x == y {
        assert multiset(prev)[x] == 0;
      }
    }
  }

  lemma DuplicateCount(names: seq<string>, x: string)
    ensures multiset(Duplicates(names))[x] == if x in names then multiset(names)[x] - 1 else 0
  {
    RepeatedIsRepeats(names, |names|);
    RepeatsCount(names, |names|, x);
    assert names[..|names|] == names;
  }

  /** No two of the first `n` names are equal. */
  predicate DistinctBefore(names: seq<string>, n: nat)
    requires n <= |names|
  {
    forall i, j :: 0 <= i < j < n ==> names[i] != names[j]
  }

  predicate Distinct(names: seq<string>)
  {
    DistinctBefore(names, |names|)
  }

  /** The first `n` names are distinct exactly when the first `n - 1` are and the last is new. */
  lemma DistinctStep(names: seq<string>, n: nat)
    requires 0 < n <= |names|
    ensures DistinctBefore(names, n) <==> DistinctBefore(names, n - 1) && names[n - 1] !in names[..n - 1]
  {
    if names[n - 1] in names[..n - 1] {
      var i :| 0 <= i < n - 1 && names[..n - 1][i] == names[n - 1];
      assert names[i] == names[n - 1];
    } else {
      forall i | 0 <= i < n - 1
        ensures names[i] != names[n - 1]
      {
        assert names[i] == names[..n - 1][i];
      }
    }
  }

  lemma {:induction false} RepeatsEmpty(names: seq<string>, n: nat)
    requires n <= |names|
    ensures Repeats(names, n) == [] <==> DistinctBefore(names, n)
  {
    if n > 0 {
      RepeatsEmpty(names, n - 1);
      DistinctStep(names, n);
      var added := if names[n - 1] in names[..n - 1] then [names[n - 1]] else [];
      assert |Repeats(names, n)| == |Repeats(names, n - 1)| + |added|;
    }
  }

  /** The duplicate list is empty exactly when the names are pairwise distinct. */
  lemma NoDuplicatesIffDistinct(names: seq<string>)
    ensures Duplicates(names) == [] <==> Distinct(names)
  {
    RepeatedIsRepeats(names, |names|);
    RepeatsEmpty(names, |names|);
  }

  /** Placeholder and disabled links are skipped by the URL check. */
  predicate IsPlaceholder(url: string)
  {
    url == "#" || url == "" || StartsWith(url, "javascript:")
  }

  /** The URLs reported invalid: not a placeholder and rejected by the URL parser. */
  function InvalidUrls(urls: seq<string>, isValidUrl: string -> bool): (r: seq<string>)
    ensures forall u :: u in r <==> u in urls && !IsPlaceholder(u) && !isValidUrl(u)
    ensures forall u :: IsPlaceholder(u) ==> u !in r
  {
    var accepted := u => IsPlaceholder(u) || isValidUrl(u);
    FailingMembers(urls, accepted);
    Failing(urls, accepted)
  }

  const RequiredSections := ["greeting", "skillsSection", "workExperiences", "bigProjects", "achievementSection"]
  const RequiredEnvVars := ["GITHUB_USERNAME", "GITHUB_TOKEN", "USE_GITHUB_DATA", "USE_MEDIUM_DATA"]
  const RequiredScripts := ["build", "start"]
  const RequiredFunctions := ["validateEnvironment", "fetchWithRetry", "writeFileWithErrorHandling"]
  const ImagesDir := "./assets/images/"

  /** The test applied to each required section: its `const` declaration occurs. */
  function Declares(content: string): string -> bool
  {
    s => Includes(content, "const " + s)
  }

  function Mentions(content: string): string -> bool
  {
    s => Includes(content, s)
  }

  function Exists(files: set<string>): string -> bool
  {
    p => p in files
  }

  /** One `import <name> from "<path>"` statement. */
  datatype ImageImport = ImageImport(name: string, path: string)

  /** What the regular expressions extract from `src/portfolio.js`. */
  datatype Portfolio = Portfolio(
    content: string,
    projectNames: seq<string>,
    achievementUrls: Option<seq<string>>,   // None: no enabled achievement section
    imports: seq<ImageImport>)

  /** The repository as the validator sees it. */
  datatype Repository = Repository(
    portfolio: Option<Portfolio>,           // None: src/portfolio.js cannot be read
    srcFiles: set<string>,                  // existing files, as paths relative to src/
    workflow: Option<string>,               // .github/workflows/deploy.yml
    package: PackageFile,
    fetchScript: Option<string>)            // fetch.js

  /** The paths of the imports that point into the images directory, in order. */
  function ImagePaths(imports: seq<ImageImport>): (r: seq<string>)
    ensures |r| <= |imports|
    ensures forall p :: p in r ==> Includes(p, ImagesDir)
  {
    if imports == [] then []
    else
      var init := imports[..|imports| - 1];
      var last := imports[|imports| - 1];
      assert imports == init + [last];
      ImagePaths(init) + (if Includes(last.path, ImagesDir) then [last.path] else [])
  }

  lemma ImagePathsStep(imports: seq<ImageImport>, i: nat)
    requires i < |imports|
    ensures ImagePaths(imports[..i + 1]) ==
      ImagePaths(imports[..i]) + (if Includes(imports[i].path, ImagesDir) then [imports[i].path] else [])
  {
    assert imports[..i + 1][..i] == imports[..i];
  }

  /** A path is collected exactly when some import has it and it points into the images directory. */
  lemma {:induction false} ImagePathsMembers(imports: seq<ImageImport>)
    ensures forall p :: p in ImagePaths(imports) <==>
      exists k :: 0 <= k < |imports| && imports[k].path == p && Includes(p, ImagesDir)
  {
    if imports != [] {
      var init := imports[..|imports| - 1];
      ImagePathsMembers(init);
      assert forall k :: 0 <= k < |init| ==> imports[k] == init[k];
    }
  }

  /** Collecting keeps the order of the imports: the paths of a concatenation are concatenated. */
  lemma {:induction false} ImagePathsAppend(xs: seq<ImageImport>, ys: seq<ImageImport>)
    ensures ImagePaths(xs + ys) == ImagePaths(xs) + ImagePaths(ys)
  {
    if ys != [] {
      var init := ys[..|ys| - 1];
      ImagePathsAppend(xs, init);
      assert (xs + ys)[..|xs + ys| - 1] == xs + init;
    } else {
      assert xs + ys == xs;
    }
  }

  /** The scan over the import statements that collects the image paths. */
  method ImageReferences(imports: seq<ImageImport>) returns (references: seq<string>)
    ensures references == ImagePaths(imports)
  {
    references := [];
    var i := 0;
    while i < |imports|
      invariant 0 <= i <= |imports|
      invariant references == ImagePaths(imports[..i])
    {
      ImagePathsStep(imports, i);
      if Includes(imports[i].path, ImagesDir) {
        references := references + [imports[i].path];
      }
      i := i + 1;
    }
    assert imports[..i] == imports;
  }

  /** The messages each check adds, as functions of what it reads. */
  function DuplicateErrors(projectNames: seq<string>): seq<string>
  {
    var d := Duplicates(projectNames);
    if d == [] then [] else ["Duplicate project names found: " + Join(d, ", ")]
  }

  function AchievementErrors(achievementUrls: Option<seq<string>>, isValidUrl: string -> bool): seq<string>
  {
    if achievementUrls.None? then []
    else
      var bad := InvalidUrls(achievementUrls.value, isValidUrl);
      if bad == [] then [] else ["Invalid achievement URLs found: " + Join(bad, ", ")]
  }

  function AchievementWarnings(achievementUrls: Option<seq<string>>): seq<string>
  {
    if achievementUrls.None? then ["Achievement section not found or disabled"] else []
  }

  function StructureErrors(content: string): seq<string>
  {
    Messages("Missing required section: ", Failing(RequiredSections, Declares(content)), "")
  }

  function ImageErrors(imports: seq<ImageImport>, srcFiles: set<string>): seq<string>
  {
    Messages("Missing image file: ", Failing(ImagePaths(imports), Exists(srcFiles)), "")
  }

  /**
   * The image check reports one message per collected path that is not an
   * existing file, and a path is reported exactly when some import into the
   * images directory names it and no such file exists.
   */
  lemma MissingImagesReported(imports: seq<ImageImport>, srcFiles: set<string>)
    ensures |ImageErrors(imports, srcFiles)| == |Failing(ImagePaths(imports), Exists(srcFiles))|
    ensures forall p :: p in Failing(ImagePaths(imports), Exists(srcFiles)) <==>
      (exists k :: 0 <= k < |imports| && imports[k].path == p && Includes(p, ImagesDir)) && p !in srcFiles
  {
    ImagePathsMembers(imports);
    FailingMembers(ImagePaths(imports), Exists(srcFiles));
  }

  function WorkflowErrors(workflow: Option<string>): seq<string>
  {
    if workflow.None? then ["GitHub Actions workflow file not found"] else []
  }

  function WorkflowWarnings(workflow: Option<string>): seq<string>
  {
    if workflow.None? then []
    else Messages("Environment variable ", Failing(RequiredEnvVars, Mentions(workflow.value)), " not found in workflow")
  }

  function ScriptErrors(package: PackageFile): seq<string>
  {
    match package
    case NotFound(_) => ["package.json not found"]
    case Malformed(_) => []
    case Parsed(json) => Messages("Missing required script: ", Failing(RequiredScripts, Configured(json.scripts)), "")
  }

  function ScriptWarnings(package: PackageFile): seq<string>
  {
    if package.Parsed? && HasEntry(package.json.scripts, "build")
       && !Includes(package.json.scripts.value["build"], "fetch.js")
    then ["Build script does not include fetch.js"] else []
  }

  function FetchScriptErrors(fetchScript: Option<string>): seq<string>
  {
    if fetchScript.None? then ["fetch.js script not found"]
    else Messages("Missing required function in fetch.js: ", Failing(RequiredFunctions, Mentions(fetchScript.value)), "")
  }

  function FetchScriptWarnings(fetchScript: Option<string>): seq<string>
  {
    if fetchScript.Some? && (!Includes(fetchScript.value, "try") || !Includes(fetchScript.value, "catch"))
    then ["fetch.js may lack proper error handling"] else []
  }

  /** The errors of the checks before `validateBuildScripts`, in run order. */
  function EarlyErrors(p: Portfolio, repo: Repository, isValidUrl: string -> bool): seq<string>
  {
    DuplicateErrors(p.projectNames) + AchievementErrors(p.achievementUrls, isValidUrl)
      + StructureErrors(p.content) + ImageErrors(p.imports, repo.srcFiles) + WorkflowErrors(repo.workflow)
  }

  function EarlyWarnings(p: Portfolio, repo: Repository): seq<string>
  {
    AchievementWarnings(p.achievementUrls) + WorkflowWarnings(repo.workflow)
  }

  /** The errors of all checks, in run order, when nothing throws. */
  function ValidationErrors(p: Portfolio, repo: Repository, isValidUrl: string -> bool): seq<string>
  {
    EarlyErrors(p, repo, isValidUrl) + ScriptErrors(repo.package) + FetchScriptErrors(repo.fetchScript)
  }

  function ValidationWarnings(p: Portfolio, repo: Repository): seq<string>
  {
    EarlyWarnings(p, repo) + ScriptWarnings(repo.package) + FetchScriptWarnings(repo.fetchScript)
  }

  class PortfolioValidator {
    var errors: seq<string>
    var warnings: seq<string>

    constructor ()
      ensures errors == [] && warnings == []
    {
      errors, warnings := [], [];
    }

    method ValidateProjectDuplicates(projectNames: seq<string>)
      modifies this
      ensures warnings == old(warnings)
      ensures errors == old(errors) + DuplicateErrors(projectNames)
    {
      var duplicates := Duplicates(projectNames);
      if |duplicates| > 0 {
        errors := errors + ["Duplicate project names found: " + Join(duplicates, ", ")];
      }
    }

    method ValidateAchievementLinks(achievementUrls: Option<seq<string>>, isValidUrl: string -> bool)
      modifies this
      ensures errors == old(errors) + AchievementErrors(achievementUrls, isValidUrl)
      ensures warnings == old(warnings) + AchievementWarnings(achievementUrls)
    {
      if achievementUrls.None? {
        warnings := warnings + ["Achievement section not found or disabled"];
        return;
      }
      var invalidUrls := InvalidUrls(achievementUrls.value, isValidUrl);
      if |invalidUrls| > 0 {
        errors := errors + ["Invalid achievement URLs found: " + Join(invalidUrls, ", ")];
      }
    }

    /** One error per section whose `const` declaration is missing, in list order. */
    method ValidateContentStructure(content: string)
      modifies this
      ensures warnings == old(warnings)
      ensures errors == old(errors) + StructureErrors(content)
    {
      var declared := Declares(content);
      var i := 0;
      while i < |RequiredSections|
        invariant 0 <= i <= |RequiredSections|
        invariant warnings == old(warnings)
        invariant errors == old(errors) +
          Messages("Missing required section: ", Failing(RequiredSections[..i], declared), "")
      {
        var section := RequiredSections[i];
        ReportStep("Missing required section: ", RequiredSections, declared, i, "");
        if !declared(section) {
          errors := errors + ["Missing required section: " + section];
        }
        i := i + 1;
      }
      assert RequiredSections[..i] == RequiredSections;
    }

    /** Only imports from the images directory are looked up; each missing file is one error. */
    method ValidateImageReferences(imports: seq<ImageImport>, srcFiles: set<string>)
      modifies this
      ensures warnings == old(warnings)
      ensures errors == old(errors) + ImageErrors(imports, srcFiles)
    {
      var references := ImageReferences(imports);
      var present := Exists(srcFiles);
      var k := 0;
      while k < |references|
        invariant 0 <= k <= |references|
        invariant warnings == old(warnings)
        invariant errors == old(errors) + Messages("Missing image file: ", Failing(references[..k], present), "")
      {
        var path := references[k];
        ReportStep("Missing image file: ", references, present, k, "");
        if !present(path) {
          errors := errors + ["Missing image file: " + path];
        }
        k := k + 1;
      }
      assert references[..k] == references;
    }

    /** Without the workflow file: one error and no warnings; otherwise one warning per absent variable. */
    method ValidateEnvironmentConfig(workflow: Option<string>)
      modifies this
      ensures errors == old(errors) + WorkflowErrors(workflow)
      ensures warnings == old(warnings) + WorkflowWarnings(workflow)
    {
      if workflow.None? {
        errors := errors + ["GitHub Actions workflow file not found"];
        return;
      }
      var mentioned := Mentions(workflow.value);
      var i := 0;
      while i < |RequiredEnvVars|
        invariant 0 <= i <= |RequiredEnvVars|
        invariant errors == old(errors)
        invariant warnings == old(warnings) +
          Messages("Environment variable ", Failing(RequiredEnvVars[..i], mentioned), " not found in workflow")
      {
        var name := RequiredEnvVars[i];
        ReportStep("Environment variable ", RequiredEnvVars, mentioned, i, " not found in workflow");
        if !mentioned(name) {
          warnings := warnings + ["Environment variable " + name + " not found in workflow"];
        }
        i := i + 1;
      }
      assert RequiredEnvVars[..i] == RequiredEnvVars;
    }

    /**
     * Missing `build` or `start` scripts are errors; a build script that does
     * not mention fetch.js only warns. A package.json that does not parse
     * throws out of the whole run (`thrown`).
     */
    method ValidateBuildScripts(package: PackageFile) returns (thrown: bool)
      modifies this
      ensures thrown <==> package.Malformed?
      ensures errors == old(errors) + ScriptErrors(package)
      ensures warnings == old(warnings) + ScriptWarnings(package)
    {
      thrown := false;
      match package
      case NotFound(_) =>
        errors := errors + ["package.json not found"];
      case Malformed(_) =>
        thrown := true;
      case Parsed(json) =>
        var scripts := json.scripts;
        var configured := Configured(scripts);
        var i := 0;
        while i < |RequiredScripts|
          invariant 0 <= i <= |RequiredScripts|
          invariant warnings == old(warnings)
          invariant errors == old(errors) +
            Messages("Missing required script: ", Failing(RequiredScripts[..i], configured), "")
        {
          var script := RequiredScripts[i];
          ReportStep("Missing required script: ", RequiredScripts, configured, i, "");
          if !configured(script) {
            errors := errors + ["Missing required script: " + script];
          }
          i := i + 1;
        }
        assert RequiredScripts[..i] == RequiredScripts;
        if HasEntry(scripts, "build") {
          if !Includes(scripts.value["build"], "fetch.js") {
            warnings := warnings + ["Build script does not include fetch.js"];
          }
        }
    }

    method ValidateFetchScript(fetchScript: Option<string>)
      modifies this
      ensures errors == old(errors) + FetchScriptErrors(fetchScript)
      ensures warnings == old(warnings) + FetchScriptWarnings(fetchScript)
    {
      if fetchScript.None? {
        errors := errors + ["fetch.js script not found"];
        return;
      }
      var content := fetchScript.value;
      var mentioned := Mentions(content);
      var i := 0;
      while i < |RequiredFunctions|
        invariant 0 <= i <= |RequiredFunctions|
        invariant warnings == old(warnings)
        invariant errors == old(errors) +
          Messages("Missing required function in fetch.js: ", Failing(RequiredFunctions[..i], mentioned), "")
      {
        var name := RequiredFunctions[i];
        ReportStep("Missing required function in fetch.js: ", RequiredFunctions, mentioned, i, "");
        if !mentioned(name) {
          errors := errors + ["Missing required function in fetch.js: " + name];
        }
        i := i + 1;
      }
      assert RequiredFunctions[..i] == RequiredFunctions;
      if !Includes(content, "try") || !Includes(content, "catch") {
        warnings := warnings + ["fetch.js may lack proper error handling"];
      }
    }

    /** `printResults`: the exit status is 1 exactly when there are errors; warnings never fail the run. */
    method PrintResults() returns (exitCode: int)
      ensures exitCode == 1 <==> errors != []
      ensures exitCode == 0 <==> errors == []
    {
      exitCode := if |errors| > 0 then 1 else 0;
    }

    /** The five checks before `validateBuildScripts`, which cannot throw once the portfolio is read. */
    method RunEarlyChecks(p: Portfolio, repo: Repository, isValidUrl: string -> bool)
      modifies this
      ensures errors == old(errors) + EarlyErrors(p, repo, isValidUrl)
      ensures warnings == old(warnings) + EarlyWarnings(p, repo)
    {
      ghost var e0, w0 := errors, warnings;
      ghost var d, a, st, im := DuplicateErrors(p.projectNames), AchievementErrors(p.achievementUrls, isValidUrl),
        StructureErrors(p.content), ImageErrors(p.imports, repo.srcFiles);
      ValidateProjectDuplicates(p.projectNames);
      ghost var e1 := errors;
      ValidateAchievementLinks(p.achievementUrls, isValidUrl);
      ghost var e2, w2 := errors, warnings;
      AppendSteps(e0, d, e1, a, e2);
      ValidateContentStructure(p.content);
      ghost var e3 := errors;
      AppendSteps(e0, d + a, e2, st, e3);
      ValidateImageReferences(p.imports, repo.srcFiles);
      ghost var e4 := errors;
      AppendSteps(e0, d + a + st, e3, im, e4);
      ValidateEnvironmentConfig(repo.workflow);
      AppendSteps(e0, d + a + st + im, e4, WorkflowErrors(repo.workflow), errors);
      AppendSteps(w0, AchievementWarnings(p.achievementUrls), w2, WorkflowWarnings(repo.workflow), warnings);
    }

    /**
     * `runValidation`: the checks in order. An exception (an unreadable
     * portfolio file, an unparsable package.json) skips the rest and exits 1.
     */
    method RunValidation(repo: Repository, isValidUrl: string -> bool) returns (exitCode: int)
      modifies this
      ensures exitCode == 0 || exitCode == 1
      ensures repo.portfolio.None? ==> exitCode == 1 && errors == old(errors) && warnings == old(warnings)
      ensures repo.portfolio.Some? && repo.package.Malformed? ==> var p := repo.portfolio.value;
        && exitCode == 1
        && errors == old(errors) + EarlyErrors(p, repo, isValidUrl)
        && warnings == old(warnings) + EarlyWarnings(p, repo)
      ensures repo.portfolio.Some? && !repo.package.Malformed? ==> var p := repo.portfolio.value;
        && errors == old(errors) + ValidationErrors(p, repo, isValidUrl)
        && warnings == old(warnings) + ValidationWarnings(p, repo)
        && (exitCode == 1 <==> errors != [])
    {
      if repo.portfolio.None? {
        return 1;   // readFileSync throws inside validateProjectDuplicates
      }
      var portfolio := repo.portfolio.value;
      RunEarlyChecks(portfolio, repo, isValidUrl);
      ghost var e1, w1 := errors, warnings;
      var thrown := ValidateBuildScripts(repo.package);
      if thrown {
        return 1;
      }
      ghost var e2, w2 := errors, warnings;
      ValidateFetchScript(repo.fetchScript);
      AppendSteps(old(errors), EarlyErrors(portfolio, repo, isValidUrl), e1, ScriptErrors(repo.package), e2);
      AppendSteps(old(errors), EarlyErrors(portfolio, repo, isValidUrl) + ScriptErrors(repo.package), e2,
        FetchScriptErrors(repo.fetchScript), errors);
      AppendSteps(old(warnings), EarlyWarnings(portfolio, repo), w1, ScriptWarnings(repo.package), w2);
      AppendSteps(old(warnings), EarlyWarnings(portfolio, repo) + ScriptWarnings(repo.package), w2,
        FetchScriptWarnings(repo.fetchScript), warnings);
      exitCode := PrintResults();
    }
  }

  /**
   * The script run directly: a fresh validator runs every check. It exits
   * with 1 exactly when an exception ends the run or some check reports an
   * error; warnings never fail it.
   */
  method ValidateRepository(repo: Repository, isValidUrl: string -> bool) returns (exitCode: int)
    ensures repo.portfolio.None? || repo.package.Malformed? ==> exitCode == 1
    ensures repo.portfolio.Some? && !repo.package.Malformed? ==>
      (exitCode == 1 <==> ValidationErrors(repo.portfolio.value, repo, isValidUrl) != [])
    ensures exitCode == 0 || exitCode == 1
  {
    var validator := new PortfolioValidator();
    exitCode := validator.RunValidation(repo, isValidUrl);
  }

  /** Duplicates add one error naming all of them; distinct names add none. */
  method DuplicateCheck(projectNames: seq<string>) returns (v: PortfolioValidator)
    ensures fresh(v) && v.warnings == []
    ensures Distinct(projectNames) ==> v.errors == []
    ensures !Distinct(projectNames) ==> |v.errors| == 1
  {
    v := new PortfolioValidator();
    v.ValidateProjectDuplicates(projectNames);
    NoDuplicatesIffDistinct(projectNames);
  }
}
