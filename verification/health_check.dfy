/**
 * The pre-deployment checker `deployment-health-check.js`: a
 * `DeploymentHealthChecker` whose checks push onto its `errors` and
 * `warnings` lists; the run is healthy exactly when `errors` is empty, and
 * exits with status 0 exactly when it is healthy and the deployment URL test
 * did not reject.
 *
 * The file system is given as facts: the set of existing paths (each with
 * whether it is a directory), the contents of `package.json` and of the
 * build directory. Console output is not modelled.
 */
module HealthCheck {
  import opened Common

  /** Existing paths relative to the project root, each mapped to whether it is a directory. */
  type Paths = map<string, bool>

  datatype RequiredFile = RequiredFile(path: string, critical: bool, isDirectory: bool)

  const RequiredFiles := [
    RequiredFile("package.json", true, false),
    RequiredFile("src/App.js", true, false),
    RequiredFile("src/portfolio.js", true, false),
    RequiredFile("public/index.html", true, false),
    RequiredFile("fetch.js", true, false)]

  const BuildFiles := [
    RequiredFile("build/index.html", true, false),
    RequiredFile("build/static", true, true)]

  /** A directory entry is found only if the path exists and is a directory. */
  predicate Present(f: RequiredFile, fs: Paths)
  {
    f.path in fs && (f.isDirectory ==> fs[f.path])
  }

  /** The paths of the missing files whose `critical` flag is `critical`, in list order. */
  function MissingPaths(files: seq<RequiredFile>, fs: Paths, critical: bool): (r: seq<string>)
    ensures |r| <= |files|
  {
    if files == [] then []
    else
      var last := files[|files| - 1];
      MissingPaths(files[..|files| - 1], fs, critical) + (if last.critical == critical && !Present(last, fs) then [last.path] else [])
  }

  /** A path is reported exactly when a listed file with that path and criticality is not present. */
  lemma {:induction false} MissingMembers(files: seq<RequiredFile>, fs: Paths, critical: bool)
    ensures forall p :: p in MissingPaths(files, fs, critical) <==>
      exists k :: 0 <= k < |files| && files[k].path == p && files[k].critical == critical && !Present(files[k], fs)
  {
    if files != [] {
      var init := files[..|files| - 1];
      MissingMembers(init, fs, critical);
      assert forall k :: 0 <= k < |init| ==> files[k] == init[k];
    }
  }

  lemma MissingStep(files: seq<RequiredFile>, fs: Paths, critical: bool, i: nat)
    requires i < |files|
    ensures MissingPaths(files[..i + 1], fs, critical) == MissingPaths(files[..i], fs, critical) +
      (if files[i].critical == critical && !Present(files[i], fs) then [files[i].path] else [])
  {
    assert files[..i + 1][..i] == files[..i];
  }

  /** Checking one more file adds at most the one message about it. */
  lemma MissingReport(files: seq<RequiredFile>, fs: Paths, critical: bool, prefix: string, i: nat)
    requires i < |files|
    ensures Messages(prefix, MissingPaths(files[..i + 1], fs, critical), "") ==
      Messages(prefix, MissingPaths(files[..i], fs, critical), "") +
      (if files[i].critical == critical && !Present(files[i], fs) then [prefix + files[i].path] else [])
  {
    MissingStep(files, fs, critical, i);
    var added := if files[i].critical == critical && !Present(files[i], fs) then [files[i].path] else [];
    MessagesAppend(prefix, MissingPaths(files[..i], fs, critical), added, "");
    assert prefix + files[i].path + "" == prefix + files[i].path;
  }

  /** A missing critical file is always reported. */
  lemma MissingCritical(files: seq<RequiredFile>, fs: Paths, k: int)
    requires 0 <= k < |files| && files[k].critical && !Present(files[k], fs)
    ensures MissingPaths(files, fs, true) != []
  {
    MissingMembers(files, fs, true);
    assert files[k].path in MissingPaths(files, fs, true);
  }

  /** Every listed file is critical, so a missing one never becomes a warning. */
  lemma {:induction false} AllCriticalNoWarnings(files: seq<RequiredFile>, fs: Paths)
    requires forall k :: 0 <= k < |files| ==> files[k].critical
    ensures MissingPaths(files, fs, false) == []
  {
    if files != [] {
      var init := files[..|files| - 1];
      AllCriticalNoWarnings(init, fs);
    }
  }

  datatype EnvVar = EnvVar(name: string, required: bool)

  const EnvVars := [
    EnvVar("USE_GITHUB_DATA", false),
    EnvVar("USE_MEDIUM_DATA", false),
    EnvVar("GITHUB_USERNAME", false),
    EnvVar("GITHUB_TOKEN", false)]

  const RequiredScripts := ["build", "start", "deploy"]
  const CriticalDeps := ["react", "react-dom", "react-scripts"]

  /** Where `dotenv` is declared. */
  datatype DotenvPlacement = InDependencies | OnlyInDevDependencies | Undeclared

  /** A runtime declaration wins; a dev-only one is misplaced; otherwise it is missing. */
  function Dotenv(json: PackageJson): (r: DotenvPlacement)
    ensures r == InDependencies <==> HasEntry(json.dependencies, "dotenv")
    ensures r == OnlyInDevDependencies <==>
      !HasEntry(json.dependencies, "dotenv") && HasEntry(json.devDependencies, "dotenv")
    ensures r == Undeclared <==>
      !HasEntry(json.dependencies, "dotenv") && !HasEntry(json.devDependencies, "dotenv")
  {
    if HasEntry(json.dependencies, "dotenv") then InDependencies
    else if HasEntry(json.devDependencies, "dotenv") then OnlyInDevDependencies
    else Undeclared
  }

  const DotenvMisplaced := "dotenv should be in dependencies, not devDependencies"
  const DotenvMissing := "dotenv dependency not found"
  const NoHomepage := "No homepage configured in package.json"
  const NoBuild := "Build directory not found - skipping build validation"
  const IndexIncomplete := "Build index.html missing required elements"
  const NoJavaScript := "No JavaScript files found in build"
  const NoCss := "No CSS files found in build"

  /** An entry of the build tree: a file with its size in bytes, or a directory. */
  datatype Node = File(size: nat) | Directory(entries: seq<Node>)

  /** The size `calculateDirectorySize` reports for a directory's entries. */
  function TotalSize(entries: seq<Node>): nat
    decreases entries, 0
  {
    if entries == [] then 0
    else TotalSize(entries[..|entries| - 1]) + NodeSize(entries[|entries| - 1])
  }

  function NodeSize(n: Node): nat
    decreases n, 1
  {
    match n
    case File(size) => size
    case Directory(entries) => TotalSize(entries)
  }

  /** The sizes of all files in the tree, depth first; directories contribute only their contents. */
  function FileSizes(entries: seq<Node>): seq<nat>
    decreases entries
  {
    if entries == [] then []
    else
      (match entries[0]
       case File(size) => [size]
       case Directory(children) => FileSizes(children))
      + FileSizes(entries[1..])
  }

  function Sum(xs: seq<nat>): nat
  {
    if xs == [] then 0 else xs[0] + Sum(xs[1..])
  }

  lemma {:induction false} SumAppend(xs: seq<nat>, ys: seq<nat>)
    ensures Sum(xs + ys) == Sum(xs) + Sum(ys)
  {
    if xs != [] {
      assert (xs + ys)[0] == xs[0];
      assert (xs + ys)[1..] == xs[1..] + ys;
      SumAppend(xs[1..], ys);
    } else {
      assert xs + ys == ys;
    }
  }

  lemma {:induction false} FileSizesAppend(xs: seq<Node>, ys: seq<Node>)
    ensures FileSizes(xs + ys) == FileSizes(xs) + FileSizes(ys)
  {
    if xs != [] {
      assert (xs + ys)[0] == xs[0];
      assert (xs + ys)[1..] == xs[1..] + ys;
      FileSizesAppend(xs[1..], ys);
    } else {
      assert xs + ys == ys;
    }
  }

  /** The directory size is the sum of the sizes of all non-directory entries in the tree. */
  lemma {:induction false} SizeIsSumOfFiles(entries: seq<Node>)
    ensures TotalSize(entries) == Sum(FileSizes(entries))
    decreases entries
  {
    if entries != [] {
      var init := entries[..|entries| - 1];
      var last := entries[|entries| - 1];
      assert entries == init + [last];
      SizeIsSumOfFiles(init);
      FileSizesAppend(init, [last]);
      SumAppend(FileSizes(init), FileSizes([last]));
      OneNode(last);
    }
  }

  /** A single entry contributes its own size. */
  lemma {:induction false} OneNode(n: Node)
    ensures Sum(FileSizes([n])) == NodeSize(n)
    decreases n
  {
    assert [n][0] == n && [n][1..] == [];
    match n {
      case File(size) =>
        assert FileSizes([n]) == [size];
        assert Sum([size]) == size + Sum([]);
      case Directory(children) =>
        SizeIsSumOfFiles(children);
        assert FileSizes([n]) == FileSizes(children) + [];
        assert FileSizes(children) + [] == FileSizes(children);
    }
  }

  /** `calculateDirectorySize`: a loop over the entries, recursing into subdirectories. */
  method CalculateDirectorySize(entries: seq<Node>) returns (size: nat)
    ensures size == TotalSize(entries)
    decreases entries
  {
    size := 0;
    var i := 0;
    while i < |entries|
      invariant 0 <= i <= |entries|
      invariant size == TotalSize(entries[..i])
    {
      assert entries[..i + 1][..i] == entries[..i];
      match entries[i] {
        case Directory(children) =>
          assert entries[i] in entries;
          var s := CalculateDirectorySize(children);
          size := size + s;
        case File(n) =>
          size := size + n;
      }
      i := i + 1;
    }
    assert entries[..i] == entries;
  }

  /** `readdirSync` of a directory: its names, or the error it throws. */
  datatype Listing = Listed(names: seq<string>) | ListError(message: string)

  /** The build directory as `validateBuildOutput` sees it. */
  datatype Build = Build(
    indexHtml: Option<string>,   // build/index.html, when it exists
    staticExists: bool,          // build/static
    jsDir: Listing,              // build/static/js
    cssDir: Listing,             // build/static/css
    entries: seq<Node>)          // the tree under build/

  /** The names with the given extension: `filter(f => f.endsWith(ext))`. */
  function WithExtension(names: seq<string>, ext: string): (r: seq<string>)
    ensures |r| <= |names|
    ensures forall f :: f in r <==> f in names && EndsWith(f, ext)
  {
    var other := f => !EndsWith(f, ext);
    FailingMembers(names, other);
    Failing(names, other)
  }

  /** The index page has a title and the React root element. */
  predicate IndexComplete(content: string)
  {
    Includes(content, "<title>") && Includes(content, "<div id=\"root\">")
  }

  /** Both listings of build/static succeed. */
  predicate StaticListed(b: Build)
  {
    !b.staticExists || (b.jsDir.Listed? && b.cssDir.Listed?)
  }

  /** The message of the first listing that throws. */
  function ListingError(b: Build): string
    requires !StaticListed(b)
  {
    if b.jsDir.ListError? then b.jsDir.message else b.cssDir.message
  }

  /** The errors of `validateFileStructure`: development files always, build files only when `build` exists. */
  function FileStructureErrors(fs: Paths): seq<string>
  {
    Messages("Missing: ", MissingPaths(RequiredFiles, fs, true), "") +
      (if "build" in fs then Messages("Missing build file: ", MissingPaths(BuildFiles, fs, true), "") else [])
  }

  /** The errors of `validatePackageConfiguration`. */
  function PackageErrors(package: PackageFile): seq<string>
  {
    match package
    case NotFound(message) => ["Error reading package.json: " + message]
    case Malformed(message) => ["Error reading package.json: " + message]
    case Parsed(json) =>
      Messages("Missing script: ", Failing(RequiredScripts, Configured(json.scripts)), "")
        + Messages("Missing critical dependency: ", Failing(CriticalDeps, Configured(json.dependencies)), "")
        + (if Dotenv(json) == OnlyInDevDependencies then [DotenvMisplaced] else [])
  }

  /** The warnings of `validatePackageConfiguration`. */
  function PackageWarnings(package: PackageFile): seq<string>
  {
    match package
    case Parsed(json) =>
      (if Truthy(json.homepage) then [] else [NoHomepage])
        + (if Dotenv(json) == Undeclared then [DotenvMissing] else [])
    case _ => []
  }

  /** The warning about build/index.html: present but without a title or the root element. */
  function IndexWarnings(b: Build): seq<string>
  {
    if b.indexHtml.Some? && !IndexComplete(b.indexHtml.value) then [IndexIncomplete] else []
  }

  /** The errors about build/static: a listing that throws, or no JavaScript. */
  function StaticErrors(b: Build): seq<string>
  {
    if !StaticListed(b) then ["Error validating build: " + ListingError(b)]
    else if b.staticExists && WithExtension(b.jsDir.names, ".js") == [] then [NoJavaScript]
    else []
  }

  /** The warning about build/static: listed, but without CSS. */
  function StaticWarnings(b: Build): seq<string>
  {
    if StaticListed(b) && b.staticExists && WithExtension(b.cssDir.names, ".css") == [] then [NoCss] else []
  }

  /** The errors of `validateBuildOutput`. */
  function BuildErrors(build: Option<Build>): seq<string>
  {
    if build.None? then [] else StaticErrors(build.value)
  }

  /** The warnings of `validateBuildOutput`: no build directory, or the index page's and build/static's. */
  function BuildWarnings(build: Option<Build>): seq<string>
  {
    if build.None? then [NoBuild] else IndexWarnings(build.value) + StaticWarnings(build.value)
  }

  /** All errors of a health check, in the order the checks run. */
  function HealthErrors(fs: Paths, package: PackageFile, build: Option<Build>): seq<string>
  {
    FileStructureErrors(fs) + PackageErrors(package) + BuildErrors(build)
  }

  /** All warnings of a health check, in the order the checks run. */
  function HealthWarnings(package: PackageFile, build: Option<Build>): seq<string>
  {
    PackageWarnings(package) + BuildWarnings(build)
  }

  /**
   * Causes that always fail the check: a missing development file, a
   * package.json that cannot be read or parsed, dotenv declared only as a
   * development dependency, a listing of build/static that throws.
   */
  lemma HealthFailures(fs: Paths, package: PackageFile, build: Option<Build>)
    ensures (exists k :: 0 <= k < |RequiredFiles| && !Present(RequiredFiles[k], fs)) ==>
      HealthErrors(fs, package, build) != []
    ensures !package.Parsed? ==> HealthErrors(fs, package, build) != []
    ensures package.Parsed? && Dotenv(package.json) == OnlyInDevDependencies ==>
      HealthErrors(fs, package, build) != []
    ensures build.Some? && !StaticListed(build.value) ==> HealthErrors(fs, package, build) != []
  {
    if exists k :: 0 <= k < |RequiredFiles| && !Present(RequiredFiles[k], fs) {
      var k :| 0 <= k < |RequiredFiles| && !Present(RequiredFiles[k], fs);
      MissingCritical(RequiredFiles, fs, k);
      assert |HealthErrors(fs, package, build)| >= |FileStructureErrors(fs)|;
    }
  }

  /** A check passes when every required file is present and nothing else reports an error. */
  lemma HealthyWhenClean(fs: Paths, package: PackageFile, build: Option<Build>)
    requires forall k :: 0 <= k < |RequiredFiles| ==> Present(RequiredFiles[k], fs)
    requires "build" in fs ==> forall k :: 0 <= k < |BuildFiles| ==> Present(BuildFiles[k], fs)
    requires PackageErrors(package) == [] && BuildErrors(build) == []
    ensures HealthErrors(fs, package, build) == []
  {
    NoneMissing(RequiredFiles, fs);
    if "build" in fs {
      NoneMissing(BuildFiles, fs);
    }
  }

  lemma {:induction false} NoneMissing(files: seq<RequiredFile>, fs: Paths)
    requires forall k :: 0 <= k < |files| ==> Present(files[k], fs)
    ensures MissingPaths(files, fs, true) == []
  {
    if files != [] {
      NoneMissing(files[..|files| - 1], fs);
    }
  }

  /**
   * `testDeploymentURL` rejects, instead of only logging, when package.json
   * parses, its homepage is truthy and parses as a URL, and the URL's protocol
   * is not "https:": `https.get` then throws inside the promise it returns,
   * outside the reach of its `try`. `urlProtocol` is the `protocol` of
   * `new URL(s)`, or None when the constructor throws. A request that is
   * made always resolves, whatever the response, error or timeout.
   */
  predicate UrlTestRejects(package: PackageFile, urlProtocol: string -> Option<string>)
  {
    && package.Parsed?
    && Truthy(package.json.homepage)
    && urlProtocol(package.json.homepage.value).Some?
    && urlProtocol(package.json.homepage.value).value != "https:"
  }

  class DeploymentHealthChecker {
    var errors: seq<string>
    var warnings: seq<string>

    constructor ()
      ensures errors == [] && warnings == []
    {
      errors, warnings := [], [];
    }

    /** One file of the list: a missing critical file is an error, a missing optional one a warning. */
    method CheckFile(f: RequiredFile, prefix: string, fs: Paths)
      modifies this
      ensures errors == old(errors) + (if f.critical && !Present(f, fs) then [prefix + f.path] else [])
      ensures warnings == old(warnings) + (if !f.critical && !Present(f, fs) then [prefix + f.path] else [])
    {
      var found := if f.isDirectory then f.path in fs && fs[f.path] else f.path in fs;
      if !found {
        if f.critical {
          errors := errors + [prefix + f.path];
        } else {
          warnings := warnings + [prefix + f.path];
        }
      }
    }

    /** One message per missing file: an error if the file is critical, a warning otherwise. */
    method CheckFiles(files: seq<RequiredFile>, prefix: string, fs: Paths)
      modifies this
      ensures errors == old(errors) + Messages(prefix, MissingPaths(files, fs, true), "")
      ensures warnings == old(warnings) + Messages(prefix, MissingPaths(files, fs, false), "")
    {
      var i := 0;
      while i < |files|
        invariant 0 <= i <= |files|
        invariant errors == old(errors) + Messages(prefix, MissingPaths(files[..i], fs, true), "")
        invariant warnings == old(warnings) + Messages(prefix, MissingPaths(files[..i], fs, false), "")
      {
        MissingReport(files, fs, true, prefix, i);
        MissingReport(files, fs, false, prefix, i);
        CheckFile(files[i], prefix, fs);
        i := i + 1;
      }
      assert files[..i] == files;
    }

    /** Development files always, build files only when `build` exists; all are critical. */
    method ValidateFileStructure(fs: Paths)
      modifies this
      ensures errors == old(errors) + FileStructureErrors(fs)
      ensures warnings == old(warnings)
    {
      AllCriticalNoWarnings(RequiredFiles, fs);
      AllCriticalNoWarnings(BuildFiles, fs);
      ghost var required := Messages("Missing: ", MissingPaths(RequiredFiles, fs, true), "");
      CheckFiles(RequiredFiles, "Missing: ", fs);
      ghost var e1 := errors;
      if "build" in fs {
        CheckFiles(BuildFiles, "Missing build file: ", fs);
        AppendSteps(old(errors), required, e1, Messages("Missing build file: ", MissingPaths(BuildFiles, fs, true), ""), errors);
      }
    }

    /**
     * `validateEnvironment`: reports whether any variable is set. No variable
     * is required, so neither list changes.
     */
    method ValidateEnvironment(env: map<string, string>) returns (envConfigured: bool)
      modifies this
      ensures envConfigured <==> exists k :: 0 <= k < |EnvVars| && Truthy(Lookup(env, EnvVars[k].name))
      ensures errors == old(errors) && warnings == old(warnings)
    {
      envConfigured := false;
      var i := 0;
      while i < |EnvVars|
        invariant 0 <= i <= |EnvVars|
        invariant envConfigured <==> exists k :: 0 <= k < i && Truthy(Lookup(env, EnvVars[k].name))
        invariant errors == old(errors) && warnings == old(warnings)
      {
        var v := EnvVars[i];
        if Truthy(Lookup(env, v.name)) {
          envConfigured := true;
        } else if v.required {
          errors := errors + [v.name + ": Not set"];
        }
        i := i + 1;
      }
    }

    /** One error per name that has no truthy entry in `m`, in list order. */
    method CheckEntries(names: seq<string>, m: Option<map<string, string>>, prefix: string)
      modifies this
      ensures errors == old(errors) + Messages(prefix, Failing(names, Configured(m)), "")
      ensures warnings == old(warnings)
    {
      var configured := Configured(m);
      var i := 0;
      while i < |names|
        invariant 0 <= i <= |names|
        invariant warnings == old(warnings)
        invariant errors == old(errors) + Messages(prefix, Failing(names[..i], configured), "")
      {
        var name := names[i];
        ReportStep(prefix, names, configured, i, "");
        if !configured(name) {
          errors := errors + [prefix + name];
        }
        i := i + 1;
      }
      assert names[..i] == names;
    }

    /**
     * `validatePackageConfiguration`: a package.json that cannot be read or
     * parsed adds exactly one error; otherwise the homepage, the scripts, the
     * critical dependencies and the placement of dotenv are checked.
     */
    method ValidatePackageConfiguration(package: PackageFile)
      modifies this
      ensures errors == old(errors) + PackageErrors(package)
      ensures warnings == old(warnings) + PackageWarnings(package)
    {
      match package
      case NotFound(message) =>
        errors := errors + ["Error reading package.json: " + message];
      case Malformed(message) =>
        errors := errors + ["Error reading package.json: " + message];
      case Parsed(json) =>
        ghost var e0, w0 := errors, warnings;
        if !Truthy(json.homepage) {
          warnings := warnings + [NoHomepage];
        }
        ghost var w1 := warnings;
        CheckEntries(RequiredScripts, json.scripts, "Missing script: ");
        ghost var e1 := errors;
        CheckEntries(CriticalDeps, json.dependencies, "Missing critical dependency: ");
        ghost var e2 := errors;
        if HasEntry(json.dependencies, "dotenv") {
          // dotenv in dependencies: correct for CI
        } else if HasEntry(json.devDependencies, "dotenv") {
          errors := errors + [DotenvMisplaced];
        } else {
          warnings := warnings + [DotenvMissing];
        }
        ghost var scripts := Messages("Missing script: ", Failing(RequiredScripts, Configured(json.scripts)), "");
        ghost var deps := Messages("Missing critical dependency: ", Failing(CriticalDeps, Configured(json.dependencies)), "");
        AppendSteps(e0, scripts, e1, deps, e2);
        AppendSteps(e0, scripts + deps, e2, if Dotenv(json) == OnlyInDevDependencies then [DotenvMisplaced] else [], errors);
        AppendSteps(w0, if Truthy(json.homepage) then [] else [NoHomepage], w1,
          if Dotenv(json) == Undeclared then [DotenvMissing] else [], warnings);
    }

    /**
     * `validateBuildOutput`: without a build directory, one warning and
     * nothing else. Otherwise an incomplete index page warns, no JavaScript
     * is an error and no CSS a warning; a listing that throws turns the rest
     * into one error. `size` is the build size, when it is computed.
     */
    method ValidateBuildOutput(build: Option<Build>) returns (size: Option<nat>)
      modifies this
      ensures errors == old(errors) + BuildErrors(build)
      ensures warnings == old(warnings) + BuildWarnings(build)
      ensures size == if build.Some? && StaticListed(build.value) then Some(TotalSize(build.value.entries)) else None
    {
      if build.None? {
        warnings := warnings + [NoBuild];
        return None;
      }
      var b := build.value;
      ghost var w0 := warnings;
      CheckIndexPage(b);
      ghost var w1 := warnings;
      var listed := CheckStatic(b);
      AppendSteps(w0, IndexWarnings(b), w1, StaticWarnings(b), warnings);
      if !listed {
        return None;
      }
      var total := CalculateDirectorySize(b.entries);
      size := Some(total);
    }

    /** The index-page part of `validateBuildOutput`. */
    method CheckIndexPage(b: Build)
      modifies this
      ensures errors == old(errors)
      ensures warnings == old(warnings) + IndexWarnings(b)
    {
      if b.indexHtml.Some? {
        var content := b.indexHtml.value;
        if !(Includes(content, "<title>") && Includes(content, "<div id=\"root\">")) {
          warnings := warnings + [IndexIncomplete];
        }
      }
    }

    /** The build/static part of `validateBuildOutput`: `listed` is false when a listing throws. */
    method CheckStatic(b: Build) returns (listed: bool)
      modifies this
      ensures listed == StaticListed(b)
      ensures errors == old(errors) + StaticErrors(b)
      ensures warnings == old(warnings) + StaticWarnings(b)
    {
      if b.staticExists {
        if b.jsDir.ListError? {
          errors := errors + ["Error validating build: " + b.jsDir.message];
          return false;
        }
        var jsFiles := WithExtension(b.jsDir.names, ".js");
        if b.cssDir.ListError? {
          errors := errors + ["Error validating build: " + b.cssDir.message];
          return false;
        }
        var cssFiles := WithExtension(b.cssDir.names, ".css");
        if |jsFiles| == 0 {
          errors := errors + [NoJavaScript];
        }
        if |cssFiles| == 0 {
          warnings := warnings + [NoCss];
        }
      }
      listed := true;
    }

    /**
     * `testDeploymentURL`: `rejected` when the returned promise rejects. An
     * unreadable package.json, a missing homepage or one `new URL` refuses
     * is caught and only logged; it changes neither list.
     */
    method TestDeploymentUrl(package: PackageFile, urlProtocol: string -> Option<string>) returns (rejected: bool)
      ensures rejected <==> UrlTestRejects(package, urlProtocol)
    {
      if !package.Parsed? {
        return false;
      }
      var homepage := package.json.homepage;
      if !Truthy(homepage) {
        return false;
      }
      var protocol := urlProtocol(homepage.value);
      if protocol.None? {
        return false;
      }
      // https.get accepts only "https:"; otherwise it throws inside the promise executor
      rejected := protocol.value != "https:";
    }

    /** `generateReport`: healthy exactly when no error was recorded; warnings do not matter. */
    method GenerateReport() returns (healthy: bool)
      ensures healthy <==> errors == []
    {
      healthy := |errors| == 0;
    }

    /**
     * `runHealthCheck`: the four checks in order, then the URL test. When
     * that rejects, the run rejects too before any report (`exitCode` is
     * None); otherwise it exits with 0 when healthy and 1 otherwise.
     */
    method RunHealthCheck(fs: Paths, env: map<string, string>, package: PackageFile, build: Option<Build>,
                          urlProtocol: string -> Option<string>)
      returns (exitCode: Option<int>)
      modifies this
      ensures errors == old(errors) + HealthErrors(fs, package, build)
      ensures warnings == old(warnings) + HealthWarnings(package, build)
      ensures exitCode.None? <==> UrlTestRejects(package, urlProtocol)
      ensures exitCode.Some? ==> (exitCode.value == 0 || exitCode.value == 1)
      ensures exitCode.Some? ==> (exitCode.value == 0 <==> errors == [])
    {
      ValidateFileStructure(fs);
      ghost var e1, w1 := errors, warnings;
      var envConfigured := ValidateEnvironment(env);
      ValidatePackageConfiguration(package);
      ghost var e2, w2 := errors, warnings;
      var size := ValidateBuildOutput(build);
      AppendSteps(old(errors), FileStructureErrors(fs), e1, PackageErrors(package), e2);
      AppendSteps(old(errors), FileStructureErrors(fs) + PackageErrors(package), e2, BuildErrors(build), errors);
      AppendSteps(old(warnings), PackageWarnings(package), w2, BuildWarnings(build), warnings);
      var rejected := TestDeploymentUrl(package, urlProtocol);
      if rejected {
        return None;
      }
      var healthy := GenerateReport();
      exitCode := Some(if healthy then 0 else 1);
    }
  }

  /**
   * The script run directly: a fresh checker runs every check; a rejected
   * run is caught and exits 1. So the exit status is 0 exactly when no check
   * reported an error and the URL test did not reject.
   */
  method CheckDeployment(fs: Paths, env: map<string, string>, package: PackageFile, build: Option<Build>,
                         urlProtocol: string -> Option<string>)
    returns (exitCode: int)
    ensures exitCode == 0 || exitCode == 1
    ensures exitCode == 0 <==> HealthErrors(fs, package, build) == [] && !UrlTestRejects(package, urlProtocol)
  {
    var checker := new DeploymentHealthChecker();
    var outcome := checker.RunHealthCheck(fs, env, package, build, urlProtocol);
    exitCode := if outcome.Some? then outcome.value else 1;
  }
}
