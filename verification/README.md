# Portfolio build and page scripts, modelled in Dafny

This project models the parts of a personal portfolio site that hold real logic:

- the build-time data importer (`fetch.js`);
- the call-to-action click log (`assets/js/cta-tracking.js`);
- the light/dark theme switch (`assets/js/theme.js`);
- the two pre-deployment linters (`validate-content.js` and `deployment-health-check.js`);
- the Jekyll generator that merges a project's `frontmatter.yml` into its main page (`_plugins/project_metadata.rb`);
- the `SEO` React component that computes the page's head tags (`src/components/SEO/SEO.js`).

There is one module per source file, plus `Common`. `Common` holds optional values, JavaScript string truthiness, the string operations the scripts use and the facts read from `package.json`.

Each piece takes the form of its source:

- Objects whose methods update fields are classes: `PortfolioValidator`, `DeploymentHealthChecker`, `Storage`, `Page`, `Doc` and `Collection`. Their lists are `seq` fields and the tables of a page are an `array`.
- Loops are `while` loops with invariants. Each is proved against a reference function: the size walk against `TotalSize`, the report against `Tally`, and the key loop of the merge against `Merged`.
- Pure code is made of functions and lemmas: the SEO component, the theme normalisation and the duplicate filter.

The SEO component renders a sequence of tags. Each meta tag names its attribute with a `Key`, one constructor per `name` or `property` the component writes. The component's fixed texts are a `Texts` record: default title, description, keywords, author, image and URL, the site name and the crawler directives. `Portfolio` holds the values `SEO.js` hard-codes, and `ComponentTags` renders with them. The lemmas about which tags appear hold for any texts. `PageTitleComposed` and `CrawlerDirectives` state the portfolio's own strings.

The environment is replaced by inputs:

- A network request is the outcome it would produce.
- The file system is a set of facts: existing paths, file contents, and the tree of the build directory.
- The clock and random numbers are parameters.
- Writing a file is a success flag.

Backoff delays are returned as values; no timer is run.

The status test `res.statusCode !== 200 && res.statusCode !== 422` is in the shared `fetchWithRetry` (`fetch.js:78`), so the Medium call accepts 422 just as the GitHub call does; `Fetch.MediumAccepts422` states it.

## Model

| member | source | states |
|---|---|---|
| Fetch.ValidateEnvironment | fetch.js:14-62 | with `USE_GITHUB_DATA` exactly "true", a missing username and a missing token each add their own error, and any error exits with status 1 only after all are collected; a missing Medium username only warns; other toggle values trigger no check |
| Fetch.MaxAttempts | fetch.js:65-92 | the first attempt is always made, so the budget is max(1, maxRetries) |
| Fetch.Backoff | fetch.js:78-116 | one delay per failed attempt, the k-th being baseDelay·2^k |
| Fetch.BackoffDoubles | fetch.js:83-111 | the first delay is the base delay and each later one doubles the previous one |
| Fetch.FirstSuccess | fetch.js:69-115 | the index of the first accepted attempt, and none exactly when no attempt in the range is accepted |
| Fetch.ReadBody | fetch.js:95-101 | the resolved body is all chunks concatenated in arrival order |
| Fetch.FetchWithRetry | fetch.js:65-126 | at most max(1, maxRetries) attempts, stopping at the first accepted one (`Made`); every attempt before the last failed; the delays are the backoff baseDelay·2^k of the failed attempts, for a bad status and a transport error alike; status 200 or 422 resolves with the body; on exhaustion the rejection is the last failure, carrying its status code (`Outcome`) |
| Fetch.MediumAccepts422 | fetch.js:78-101 | status 422 resolves even for the Medium call's budget of 2 attempts and 2000 ms |
| Fetch.FetchAllData | fetch.js:147-251 | both directions of `FetchedAll`: GitHub is fetched iff its toggle is "true", with 3 attempts and base 1000 ms; profile.json gets the first accepted body iff an attempt is accepted and the write succeeds, and otherwise the run exits 1 and skips Medium; Medium is fetched iff enabled with a username and GitHub did not fail, with 2 attempts and base 2000 ms; blogs.json gets its first accepted body iff fetch and write succeed, and its failure never changes the exit status |
| Fetch.GithubFailureFatal | fetch.js:147-228 | a rejected GitHub budget or a failed write exits 1, writes no profile and never reaches Medium |
| Fetch.GithubSuccessWrites | fetch.js:147-228 | with a successful write, the first accepted GitHub attempt k gives exit 0, its body in profile.json, and k backoff delays before it |
| Fetch.MediumFailureSwallowed | fetch.js:231-251 | after a good GitHub step, a Medium budget of failures leaves exit 0, no blogs.json and the full backoff |
| Fetch.RunScript | fetch.js:143-168 | validation runs before any request: the script aborts before fetching iff a GitHub credential is missing with GitHub enabled; otherwise the run is the one `FetchedAll` describes |
| CtaTracking.ClickEventFor | assets/js/cta-tracking.js:31-35 | the event has category "CTA", value 1, and label type, underscore, context |
| CtaTracking.Truncate | assets/js/cta-tracking.js:140 | the stored user agent is the first min(100, n) characters of the string |
| CtaTracking.Capped | assets/js/cta-tracking.js:145-148 | trimming keeps the newest min(100, n) entries, a suffix of the log in its order |
| CtaTracking.AppendCapped | assets/js/cta-tracking.js:143-150 | after logging, the list holds 1 to 100 entries, the last is the new one, and the others are the newest old entries in their original order |
| CtaTracking.Analytics | assets/js/cta-tracking.js:176-183 | absent or unparsable data reads as no entries, a stored array as its entries; a value that parses but is not an array gives no list, since the report then throws |
| CtaTracking.Storage.GetSessionId | assets/js/cta-tracking.js:160-170 | an existing id is returned unchanged and nothing is written; otherwise a new id is created and stored |
| CtaTracking.SessionIdIsStable | assets/js/cta-tracking.js:160-170 | two lookups in a row return the same id, which is the stored one |
| CtaTracking.Storage.TrackToLocalStorage | assets/js/cta-tracking.js:129-154 | unparsable stored data makes logging a no-op; otherwise a session id is obtained (written when missing); a stored non-array value is then left unchanged because `push` throws; absent or array data gets the new entry appended and the log capped to 100 |
| CtaTracking.Storage.TrackClick | assets/js/cta-tracking.js:30-54 | the click event is sent iff the analytics tag is loaded; the storage is then `Logged` exactly as by `trackCTAToLocalStorage` (session id kept or created, the full new entry appended to the old log and capped, or nothing written for unparsable data); with absent or array data the click ends up last in a log of at most 100 entries |
| CtaTracking.DayOf | assets/js/cta-tracking.js:207 | the day key is the part of the timestamp before its first 'T' |
| CtaTracking.Reversed | assets/js/cta-tracking.js:196 | `reverse()`: element i is element n-1-i of the input |
| CtaTracking.Recent | assets/js/cta-tracking.js:196 | the recent activity is the last min(10, n) entries, newest first |
| CtaTracking.Tally | assets/js/cta-tracking.js:199-209 | a count dictionary's keys are exactly the values counted |
| CtaTracking.TallyCounts | assets/js/cta-tracking.js:199-209 | each key's count is its number of occurrences |
| CtaTracking.TallySum | assets/js/cta-tracking.js:199-209 | the counts of a dictionary add up to the number of entries counted |
| CtaTracking.PerformanceReport | assets/js/cta-tracking.js:189-212 | no report exactly when the stored value is not an array (the loop throws); otherwise the total is the number of entries, the three dictionaries are the tallies of types, contexts and days, and the recent list is `Recent` |
| CtaTracking.ReportSums | assets/js/cta-tracking.js:192-209 | each of the three dictionaries sums to `total_clicks` |
| Theme.Normalize | assets/js/theme.js:239-246 | the setting is "light" or "dark", and "dark" exactly when "dark" is stored; anything else, absence included, is "light" |
| Theme.Toggled | assets/js/theme.js:7-17 | toggling gives "dark" exactly from "light", and "light" from anything else |
| Theme.ToggleTwice | assets/js/theme.js:7-17 | two toggles restore the normalised setting |
| Theme.MermaidThemeName | assets/js/theme.js:132-137 | Mermaid receives "default" for light and any other theme name unchanged |
| Theme.ToggleButtonFor | assets/js/theme.js:254-263 | `aria-pressed` is "true" iff the theme is dark, and label and title name the opposite theme |
| Theme.Page.ThemeSetting | assets/js/theme.js:248-251 | the computed theme is always "light" or "dark" |
| Theme.Page.SetHighlight | assets/js/theme.js:94-102 | exactly one highlight stylesheet is active, the one of the theme; nothing else changes |
| Theme.Page.SetSearchTheme | assets/js/theme.js:198-207 | the search widget has class "dark" iff the theme is dark; without the widget nothing changes |
| Theme.Page.ApplyTheme | assets/js/theme.js:32-92 | the page `Follows` the normalised stored theme: `data-theme`, the transition class, both stylesheets, the search widget, Mermaid and every table's `table-dark` class; the stored setting and the button are unchanged |
| Theme.Page.SetThemeSetting | assets/js/theme.js:20-29 | the stored value and `data-theme-setting` are the argument, and the whole page follows its normalisation; the button is unchanged |
| Theme.Page.ToggleThemeSetting | assets/js/theme.js:7-17 | the stored setting and `data-theme-setting` become the toggle of the normalised one, and the whole page follows it; the button is unchanged |
| Theme.Page.UpdateThemeToggleAccessibility | assets/js/theme.js:254-264 | the button, when present, gets the attributes of the current theme; the theme state, stylesheets, search widget, Mermaid and tables are unchanged |
| Theme.Page.Click | assets/js/theme.js:297-305 | a click toggles the stored setting, the whole page follows the new theme, and the button, when present, shows that theme's attributes (pressed iff dark) |
| Theme.ClickTwice | assets/js/theme.js:297-305 | two clicks bring the stored setting back to its normalised start value |
| ContentValidation.FirstIndex | validate-content.js:77 | `indexOf` finds an earlier index exactly when the name occurred before |
| ContentValidation.RepeatedStep | validate-content.js:77 | the filter keeps the name at each index exactly when it already occurred before that index |
| ContentValidation.RepeatedIsRepeats | validate-content.js:77 | the `indexOf` filter equals the list of names that already occurred earlier, over any prefix |
| ContentValidation.RepeatsCount | validate-content.js:77 | that list holds each name once per occurrence after its first, over any prefix |
| ContentValidation.DuplicateCount | validate-content.js:77 | the duplicate list holds each name (occurrences − 1) times |
| ContentValidation.DistinctStep | validate-content.js:77 | a prefix is pairwise distinct iff the prefix one shorter is and its last name is new |
| ContentValidation.RepeatsEmpty | validate-content.js:77 | over any prefix, no name occurred earlier iff the names are pairwise distinct |
| ContentValidation.NoDuplicatesIffDistinct | validate-content.js:77 | the duplicate list is empty iff the project names are pairwise distinct |
| ContentValidation.InvalidUrls | validate-content.js:113-123 | a URL is reported iff it is listed, not a placeholder ('#', '' or 'javascript:…') and rejected by the URL parser |
| ContentValidation.ImagePaths | validate-content.js:169-176 | only imports whose path contains './assets/images/' are kept |
| ContentValidation.ImagePathsMembers | validate-content.js:169-176 | a path is collected iff some import names it and it contains './assets/images/' |
| ContentValidation.ImagePathsAppend | validate-content.js:169-176 | collection keeps import order: the paths of a concatenation of imports are the concatenation of their paths |
| ContentValidation.ImageReferences | validate-content.js:169-176 | the scan over the imports collects exactly `ImagePaths`, in order |
| ContentValidation.PortfolioValidator.constructor | validate-content.js:37-41 | a validator starts with no errors and no warnings |
| ContentValidation.PortfolioValidator.ValidateProjectDuplicates | validate-content.js:60-84 | duplicates add exactly one error joining all duplicate names; none add nothing |
| ContentValidation.DuplicateCheck | validate-content.js:77-83 | distinct names give no error, repeated ones exactly one |
| ContentValidation.PortfolioValidator.ValidateAchievementLinks | validate-content.js:87-130 | without an enabled section, one warning; otherwise one error joining the invalid URLs, or nothing |
| ContentValidation.PortfolioValidator.ValidateContentStructure | validate-content.js:133-155 | one error per required section without its `const` declaration, in list order |
| ContentValidation.PortfolioValidator.ValidateImageReferences | validate-content.js:158-187 | one error per missing image file, in import order; only image-directory imports are looked up |
| ContentValidation.MissingImagesReported | validate-content.js:158-187 | one message per reported path, and a path is reported iff an images-directory import names it and no such file exists |
| ContentValidation.PortfolioValidator.ValidateEnvironmentConfig | validate-content.js:190-217 | a missing workflow adds one error and no warnings; otherwise one warning per variable it does not mention |
| ContentValidation.PortfolioValidator.ValidateBuildScripts | validate-content.js:220-249 | a missing package.json is one error and an unparsable one throws; each missing `build` or `start` script is one error; a build script without fetch.js only warns |
| ContentValidation.PortfolioValidator.ValidateFetchScript | validate-content.js:252-283 | a missing fetch.js is one error; otherwise one error per missing function, and a warning when `try` or `catch` is absent |
| ContentValidation.PortfolioValidator.PrintResults | validate-content.js:307-335 | the exit status is 1 iff there are errors; warnings never fail |
| ContentValidation.PortfolioValidator.RunEarlyChecks | validate-content.js:291-296 | the five checks before the build scripts append exactly their messages, in order |
| ContentValidation.PortfolioValidator.RunValidation | validate-content.js:286-304 | an unreadable portfolio exits 1 with nothing recorded; an unparsable package.json exits 1 after the five earlier checks' messages; otherwise `errors` and `warnings` gain exactly the messages of all checks in order, and the run exits 1 iff an error was recorded |
| ContentValidation.ValidateRepository | validate-content.js:338-342 | a fresh validator exits 1 for an unreadable portfolio or package.json, and otherwise exactly when some check reports an error |
| HealthCheck.MissingMembers | deployment-health-check.js:59-73 | a path is reported with a given criticality iff its file is listed with that criticality and is not present; a directory entry counts only if it is a directory |
| HealthCheck.AllCriticalNoWarnings | deployment-health-check.js:45-56 | every listed file is critical, so a missing one is never a warning |
| HealthCheck.DeploymentHealthChecker.constructor | deployment-health-check.js:34-39 | a checker starts with no errors and no warnings |
| HealthCheck.DeploymentHealthChecker.CheckFiles | deployment-health-check.js:59-73 | one message per missing file, an error if critical and a warning otherwise; present files add nothing |
| HealthCheck.DeploymentHealthChecker.ValidateFileStructure | deployment-health-check.js:42-99 | appends `FileStructureErrors`: development files are always checked and build files only when `build` exists; no warning results |
| HealthCheck.DeploymentHealthChecker.ValidateEnvironment | deployment-health-check.js:102-141 | reports whether any variable is set and never changes `errors` or `warnings`, since no variable is required |
| HealthCheck.Dotenv | deployment-health-check.js:180-194 | dotenv is classified as in dependencies, only in devDependencies, or undeclared, each by its exact condition |
| HealthCheck.DeploymentHealthChecker.CheckEntries | deployment-health-check.js:158-178 | one error per name without a truthy entry, in list order |
| HealthCheck.DeploymentHealthChecker.ValidatePackageConfiguration | deployment-health-check.js:144-199 | appends `PackageErrors` and `PackageWarnings`: an unreadable or unparsable package.json adds exactly one error; otherwise one error per missing script and per missing critical dependency, an error for dev-only dotenv, and warnings for a missing homepage or dotenv |
| HealthCheck.WithExtension | deployment-health-check.js:232-237 | the filter keeps exactly the names with the extension |
| HealthCheck.SizeIsSumOfFiles | deployment-health-check.js:264-280 | the directory size equals the sum of the sizes of all non-directory entries in the tree |
| HealthCheck.OneNode | deployment-health-check.js:264-280 | one entry contributes its own file size, or the sum of its subtree |
| HealthCheck.CalculateDirectorySize | deployment-health-check.js:264-280 | the loop with recursion computes `TotalSize` |
| HealthCheck.DeploymentHealthChecker.ValidateBuildOutput | deployment-health-check.js:202-261 | appends `BuildErrors` and `BuildWarnings`: with no build directory, one warning and nothing else; zero JS files is an error, zero CSS files a warning; a failing listing is one error; the size is computed exactly when the listings succeed |
| HealthCheck.DeploymentHealthChecker.CheckIndexPage | deployment-health-check.js:214-227 | an index page without `<title>` or the root element adds one warning; nothing else changes |
| HealthCheck.DeploymentHealthChecker.CheckStatic | deployment-health-check.js:229-260 | a listing of build/static that throws adds one error and stops; otherwise zero JS files is one error and zero CSS files one warning |
| HealthCheck.DeploymentHealthChecker.GenerateReport | deployment-health-check.js:326-362 | healthy iff `errors` is empty |
| HealthCheck.DeploymentHealthChecker.TestDeploymentUrl | deployment-health-check.js:283-323 | the URL test rejects iff package.json parses and its homepage is truthy, parses as a URL and is not "https:"; every other outcome, a failed request included, is only logged |
| HealthCheck.DeploymentHealthChecker.RunHealthCheck | deployment-health-check.js:365-388 | `errors` and `warnings` gain exactly the messages of the four checks in order; the run rejects before any report iff the URL test rejects, and otherwise exits 0 iff no error was recorded |
| HealthCheck.HealthFailures | deployment-health-check.js:42-261 | a missing development file, an unreadable or unparsable package.json, dev-only dotenv, or a failing build listing each make the check report an error |
| HealthCheck.HealthyWhenClean | deployment-health-check.js:42-388 | with every required file present and no package or build error, the check reports no error |
| HealthCheck.CheckDeployment | deployment-health-check.js:391-398 | a fresh checker exits 0 exactly when the four checks report no error and the URL test does not reject; a rejection is caught and exits 1 |
| ProjectMetadata.Get | _plugins/project_metadata.rb:41 | a missing key reads as nil |
| ProjectMetadata.Merged | _plugins/project_metadata.rb:37-51 | a non-blank main value other than `layout` is kept; a missing, nil or empty one takes the front-matter value; a truthy front-matter `layout` wins; keys absent from the front matter are unchanged |
| ProjectMetadata.MergeSelf | _plugins/project_metadata.rb:37-51 | merging a document into itself changes nothing |
| ProjectMetadata.MergeMetadata | _plugins/project_metadata.rb:37-51 | the loop over the front-matter keys leaves `Merged` in the main document and does not modify the front-matter document |
| ProjectMetadata.Basename | _plugins/project_metadata.rb:13 | the base name is the suffix of the path after its last '/' (the whole path without one), and holds no '/' |
| ProjectMetadata.Dirname | _plugins/project_metadata.rb:12 | the directory is "." without a '/', "/" when the last '/' is the first character, and otherwise the part before the last '/' |
| ProjectMetadata.DirnameBasename | _plugins/project_metadata.rb:12-13 | below the root, directory + "/" + base name gives the path back |
| ProjectMetadata.LeadingDots | _plugins/project_metadata.rb:32 | the count of dots a name starts with: all of them, and no more |
| ProjectMetadata.CutExtension | _plugins/project_metadata.rb:32 | a name is kept whole iff it has no '.' after its leading dots; otherwise it is cut just before its last '.', which comes after the leading dots |
| ProjectMetadata.Stem | _plugins/project_metadata.rb:32 | the base name cut before its last '.', leading dots not counting; a prefix of the base name |
| ProjectMetadata.FindFrom | _plugins/project_metadata.rb:31-34 | the first position from i on whose path passes the test, or none iff no later path passes |
| ProjectMetadata.FindMainProject | _plugins/project_metadata.rb:30-35 | the first document in collection order whose stem equals the name or whose path contains it, and nil iff none matches |
| ProjectMetadata.ProjectNameOccurs | _plugins/project_metadata.rb:12-13 | a `frontmatter.yml` path contains the name of its own directory |
| ProjectMetadata.FrontmatterMatchesItself | _plugins/project_metadata.rb:30-35 | a `frontmatter.yml` document matches its own project name |
| ProjectMetadata.ProjectAlwaysFound | _plugins/project_metadata.rb:16-18 | while a `frontmatter.yml` document is in the collection, its main project is found, at or before it |
| ProjectMetadata.PassOnlyDeletes | _plugins/project_metadata.rb:8-25 | the loop only deletes documents |
| ProjectMetadata.PassKeepsPrefix | _plugins/project_metadata.rb:8-25 | documents before the loop position are never touched again |
| ProjectMetadata.PassKeepsOthers | _plugins/project_metadata.rb:8-25 | only documents whose path ends in `frontmatter.yml` are removed |
| ProjectMetadata.SecondFrontmatterSkipped | _plugins/project_metadata.rb:8-25 | a `frontmatter.yml` document right after a deleted one is not visited and stays |
| ProjectMetadata.Delete | _plugins/project_metadata.rb:23 | after `delete` no occurrence of the document is left and the list has not grown |
| ProjectMetadata.DeleteKeeps | _plugins/project_metadata.rb:23 | a document survives `delete` iff it was in the list and is not the deleted one |
| ProjectMetadata.DeleteAt | _plugins/project_metadata.rb:23 | without repeated documents, deleting one removes exactly its position |
| ProjectMetadata.DeleteAbsent | _plugins/project_metadata.rb:23 | deleting an absent document changes nothing |
| ProjectMetadata.Collection.MergeAndDelete | _plugins/project_metadata.rb:18-24 | the found project's data becomes `Merged`, and the `frontmatter.yml` document is removed from its position |
| ProjectMetadata.Collection.Generate | _plugins/project_metadata.rb:6-26 | the collection left is `Pass` of the original: only documents ending in `frontmatter.yml` are removed, and every survivor was there before |
| Seo.Or | src/components/SEO/SEO.js:34-39 | each final value is the prop when truthy and the fixed default otherwise |
| Seo.CanonicalHref | src/components/SEO/SEO.js:40 | the canonical href is `canonicalUrl` if truthy, else the page URL if truthy, else the site URL |
| Seo.DefaultTitleNotComposed | src/components/SEO/SEO.js:43-45 | the default title never has the form title + " \| " + site name |
| Seo.PageTitleComposed | src/components/SEO/SEO.js:43-45 | the page title ends in " \| Sameh Shehata Portfolio" iff the title is truthy and not the default; otherwise it is the final title |
| Seo.CrawlerDirectives | src/components/SEO/SEO.js:56-66 | robots and googlebot are "noindex, nofollow" iff `noIndex` |
| Seo.ArticleTagMetas | src/components/SEO/SEO.js:104-106 | one `article:tag` meta tag per tag, in order |
| Seo.TitleTag | src/components/SEO/SEO.js:50 | the only title tag is the page title |
| Seo.DescriptionTag | src/components/SEO/SEO.js:51 | the component's only description tag carries the final description |
| Seo.KeywordsTag | src/components/SEO/SEO.js:52 | the component's only keywords tag carries the final keywords |
| Seo.AuthorTag | src/components/SEO/SEO.js:53 | the component's only author tag carries the final author |
| Seo.RobotsTag | src/components/SEO/SEO.js:56-59 | the component's only robots tag carries the directive chosen by `noIndex` |
| Seo.GooglebotTag | src/components/SEO/SEO.js:60-66 | the component's only googlebot tag carries the directive chosen by `noIndex` |
| Seo.CanonicalTag | src/components/SEO/SEO.js:69 | the component's only canonical link points at the canonical href |
| Seo.OpenGraphTypeTag | src/components/SEO/SEO.js:72 | `og:type` carries the `type` prop, "website" when it is not given |
| Seo.OpenGraphTitleTag | src/components/SEO/SEO.js:73 | `og:title` carries the final title, not the composed page title |
| Seo.OpenGraphImage | src/components/SEO/SEO.js:71-87 | with a non-empty default image the Open Graph block ends with width 1200, height 630 and the alt text final title + " - Preview Image" |
| Seo.ImageDetails | src/components/SEO/SEO.js:80-87 | with a non-empty default image, as the portfolio has, the Open Graph image width, height and alt text are always rendered |
| Seo.TwitterImageAltTag | src/components/SEO/SEO.js:118-120 | with a non-empty default image the Twitter image alt text (final title + " - Preview Image") is always rendered |
| Seo.ArticlePublishedTag | src/components/SEO/SEO.js:90-94 | the publication time appears iff the page is an article and the prop is truthy |
| Seo.ArticleAuthorTag | src/components/SEO/SEO.js:90-100 | the article author appears iff the page is an article and the prop is truthy |
| Seo.ArticleTagTags | src/components/SEO/SEO.js:90-106 | an `article:tag` for a tag appears iff the page is an article and the tag is listed |
| Seo.ArticleTagsInOrder | src/components/SEO/SEO.js:89-108 | on an article page the article tags appear contiguously and in the given order |
| Seo.TwitterTitleTag | src/components/SEO/SEO.js:112 | `twitter:title` carries the final title, not the composed page title |
| Seo.StructuredDataTag | src/components/SEO/SEO.js:146-150 | the JSON-LD script is rendered iff structured data is given, with that data |

## Left out

- Console output, colours and log messages are not modelled anywhere. Only the `errors` and `warnings` lists, exit codes and stored state are.
- `fetch.js`:
  - Loading `.env` and the text of the GraphQL query and request options are not modelled.
  - `writeFileWithErrorHandling` is a success flag.
  - Timers are not run; each backoff delay is returned as a value.
- Fetch.FetchWithRetry: requires one outcome per attempt the budget allows, because the network is an input. The count of attempts actually made is an output.
- `assets/js/cta-tracking.js`:
  - `openCalendarBooking`, `downloadPortfolio` and `initializeCTATracking` are left out. They only open windows, click a link, register a listener and send analytics events.
  - The `debug` branch is left out; it is off in the configuration.
  - JSON serialisation of the log is the identity.
  - A failing `localStorage.setItem` (quota) is not modelled.
  - The analytics tag's presence is the parameter `gtagLoaded`.
- CtaTracking.Truncate: counts characters as Unicode scalar values; `substring` counts UTF-16 code units, so a user agent with a character outside the Basic Multilingual Plane is cut at a different point.
- CtaTracking.NewSessionId: states only that the id is non-empty. The clock reading and the base-36 random suffix are inputs.
- `assets/js/theme.js`:
  - The re-rendering of third-party widgets is not modelled: giscus, diff2html, ECharts, Vega, Jupyter iframes and medium-zoom. Mermaid is reduced to the theme name it receives.
  - `transTheme` is modelled only up to setting the class. Its timer, which removes the class after 300 ms, is not run.
  - `initTheme`, the icon display and the screen-reader announcement are not modelled.
  - The keyboard handler is not modelled separately; it runs the same two calls as `Click`.
- Theme.Page.SetHighlight: assumes both highlight stylesheet elements exist, as they do in the site's layout. Without one of them `setHighlight` throws, and `applyTheme` (Theme.Page.ApplyTheme) stops before `data-theme` and the tables are set.
- `validate-content.js`:
  - The regular-expression extraction of names, URLs and imports is not modelled; the results are given lists.
  - `new URL(...)` is the predicate `isValidUrl`.
  - `loadPortfolioConfig` only logs, and is not modelled.
  - `path.join` normalisation is not modelled: an image path is looked up as written in its import.
  - A workflow file that exists but cannot be read is not modelled.
  - A package.json or fetch.js that exists but cannot be read (`readFileSync` throwing, validate-content.js:229-230 and 262) is not modelled: the model treats package.json as not found and continues, where the source leaves `runValidation` through its catch and skips `validateFetchScript`. Both exit 1.
- `deployment-health-check.js`:
  - The request of `testDeploymentURL` is not made: every response, request error and timeout only logs and resolves, so only the case in which it rejects is modelled. The protocol of `new URL(...)` is the parameter `urlProtocol`.
  - The `.env` existence check only logs and is not modelled.
  - The MB formatting of the build size is not modelled.
  - An exception thrown by `statSync` or `readdirSync` during the size walk is not modelled.
  - The file-system paths and the build directory are separate inputs, so the model does not force them to agree.
- ProjectMetadata.Basename: does not model Ruby's stripping of trailing slashes. The same holds for Dirname. Paths of collection documents have no trailing slash.
- ProjectMetadata.MergeMetadata: visits keys in an unspecified order, not Ruby's insertion order. The result is the same for every order, because each key is handled on its own.
- ProjectMetadata.Blank: treats only nil and empty strings, arrays and hashes as blank. Other Ruby objects that answer `empty?` are not modelled.
- ProjectMetadata.Collection.Generate: states the resulting collection, not the merged front matter of each main project. `MergeAndDelete` states the merge for each step.
- ProjectMetadata.Collection.Generate and MergeAndDelete: require the collection to hold no document twice, which holds for a Jekyll collection. Without that, `delete` would remove more than one position.
- Fetch.ReadBody: chunks are decoded strings. Node decodes each `Buffer` chunk on its own, so a multi-byte UTF-8 character split across two chunks becomes U+FFFD in the source; the model concatenates the text as if it arrived whole.
- CtaTracking.Tally: counts every key as an ordinary dictionary key. The source counts into `{}`, where keys that name `Object.prototype` members ("constructor", "__proto__", "toString", …) start from an inherited value instead of 0, or are ignored.
- CtaTracking.Analytics: an array whose elements are not entry objects is not modelled; a stored array holds entries.
- `src/components/SEO/SEO.js`:
  - The JSX/Helmet rendering is a sequence of tags. React `key` attributes are not modelled.
  - The PropTypes declarations are not modelled.
  - The caller's extra meta and link tags are kept as attribute maps (`ExtraMeta`, `ExtraLink`). The lemmas that a tag is the only one of its kind cover the component's own tags: a caller's extra `description` meta or `canonical` link is rendered as a second tag.
  - Structured data is its JSON text; the object is truthy exactly when present.
