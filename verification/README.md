# NoLess core in Dafny

NoLess generates machine-learning projects with local language models, then reviews and
improves the generated code. This project models the deterministic layer around those
models and proves properties of it:

- **Reading a reviewer's reply** (`response_parsing.dfy`, module `ResponseParsing`): the
  four-stage JSON recovery of the code validator, with its string- and escape-aware brace
  scanner, the trailing-comma repair, the completion of a parsed review, and the plain-text
  fallback that never fails.
- **The code validator** (`code_validator.dfy`, `CodeValidator`): code extraction from
  markdown fences, the bounded two-attempt fix loop, the review prompt, and the result
  shaping of `validate_and_improve`. **Reviewer choice** (`reviewer_selection.dfy`,
  `ReviewerSelection`): the requested model, or the name-sorted scan by size marker.
- **The static analyzer** (`error_detection.dfy`, `ErrorDetection`): the table-driven
  security line scanner, the detectors over the syntax tree (`syntax_tree.dfy`,
  `SyntaxTree`: the tree and the breadth-first `ast.walk`), and the performance checks.
- **Metrics** (`code_metrics.dfy`, `CodeMetricsAnalysis`): line, comment and duplicate
  counts, complexity, type-hint coverage, the clamped quality score and the letter grade.
- **The refinement loop** (`feedback_loops.dfy`, `FeedbackLoops`): the bounded loop with
  its append-only history, fence stripping, improvement labels, and the combined validation.
- **Result filters** (`output_filtering.dfy`, `OutputFiltering`), **error messages and the
  progress tracker** (`error_messaging.dfy`, `ErrorMessaging`), the **TTL cache**
  (`cache_manager.dfy`, `CacheManagement`), the **record schemas** (`schemas.dfy`,
  `Schemas`), the **dependency registry** (`dependency_optimizer.dfy`,
  `DependencyOptimization`), **prompt composition** (`few_shot_prompting.dfy`,
  `FewShotPrompting`) and the **version bump** helper (`bump_version.dfy`, `VersionBump`).

`py.dfy` (module `Py`) holds the Python built-ins the code relies on, written out over
`string`: `strip`, `split`, `find`, `count`, `replace`, `lower`, slicing, `str(int)` and
`int(str)`. The language models, `json.loads`, `re.search`, `ast.parse`, module import, the
clock and code execution are function-typed parameters ("oracles") or explicit arguments.
Python dicts and decoded JSON are the datatype `Schemas.Value`; where Python would raise,
the model returns `Err` with the exception's name.

Objects whose fields the source updates keep that form: `CacheManager`,
`ProgressTracker`, `OutputSelector`, `DependencyOptimizer`, `DependencyAwareConfig`,
`IterativeFeedbackLoop` and `CodeMetricsAnalyzer` are classes whose methods carry
`modifies` clauses, and the source's loops are methods with loop invariants proved
against specification functions.

## Model

| member | source | states |
|---|---|---|
| VersionBump.ParseVersion | bump_version.py:22 | a version parses exactly when it splits on dots into three pieces that are all integers; otherwise ValueError |
| VersionBump.Bumped | bump_version.py:24-36 | a bump happens exactly for "major", "minor" or "patch", and the bumped version is strictly later |
| VersionBump.BumpVersion | bump_version.py:20-36 | an unparsable version raises ValueError; an unknown part raises ValueError naming the part and the three valid ones |
| VersionBump.SplitWithout | bump_version.py:22 | text without a separator splits into itself alone |
| VersionBump.SplitFirst | bump_version.py:22 | splitting at a first separator yields the piece before it followed by the pieces of the rest |
| VersionBump.NoDotInNumber | bump_version.py:36 | a formatted integer holds no dot |
| VersionBump.SplitThree | bump_version.py:22-36 | three dot-free pieces joined by dots split back into those pieces |
| VersionBump.VersionRoundTrip | bump_version.py:22-36 | a formatted version parses back to itself |
| VersionBump.BumpVersionSpec | bump_version.py:20-36 | for a parsable version the bump succeeds exactly for a valid part; the result parses back, is strictly later, and "major" resets minor and patch, "minor" resets patch, "patch" increments patch alone |
| VersionBump.DigitRun | bump_version.py:14 | the run of digits from a position is maximal: every character in it is a digit and the next is not |
| VersionBump.SearchFrom | bump_version.py:14 | the match found is the leftmost from the position; none exactly when no position matches |
| VersionBump.GetCurrentVersion | bump_version.py:11-17 | the version of the leftmost `version="d.d.d"`; ValueError "Could not find version in setup.py" exactly when there is none |
| VersionBump.VersionAtPieces | bump_version.py:14 | a match is three non-empty digit runs joined by dots |
| VersionBump.VersionAtShape | bump_version.py:14 | a matched version splits on dots into three non-empty digit pieces |
| VersionBump.VersionAtPinned | bump_version.py:42-45 | the text contains the pinned form `version="..."` of the matched version |
| VersionBump.DigitsParse | bump_version.py:14-22 | a non-empty digit run parses to a non-negative integer |
| VersionBump.FoundVersionParses | bump_version.py:11-36 | a version found in the file always parses, with non-negative components |
| VersionBump.ReplaceLength | bump_version.py:42-45 | replacing every occurrence changes the length by the number of occurrences times the difference in length |
| VersionBump.UpdateVersionSpec | bump_version.py:39-46 | without the old pin the content is unchanged (`Py.ReplaceAbsent`); with it, the first occurrence is replaced by the new pin (`Py.ReplaceFirst`), and the length changes by the occurrences times the difference |
| VersionBump.UpdateVersion | bump_version.py:39-46 | contents without the old pin are unchanged; contents with it come to contain the new pin |
| VersionBump.BumpSetup | bump_version.py:49-86 | the run fails with the usage message for an unknown part and with the search's ValueError when no version is pinned; it succeeds otherwise, and an unconfirmed run leaves the contents as they were |
| VersionBump.BumpSetupSpec | bump_version.py:49-86 | the run succeeds exactly when the part is valid and a version is found; an unconfirmed answer leaves the file unchanged; a confirmed one writes the bumped version in place of the old one |
| CacheManagement.LikeAnything | noless/cache_manager.py:137-152 | the pattern "%" matches every key |
| CacheManagement.LikePrefix | noless/cache_manager.py:137-152 | a pattern "prefix%" matches every key that starts with the prefix |
| CacheManagement.LikeLiteral | noless/cache_manager.py:150-152 | a pattern without wildcards matches exactly the keys equal to it up to ASCII case |
| CacheManagement.Where | noless/cache_manager.py:145-158 | the selected keys are exactly the rows satisfying the condition |
| CacheManagement.InvalidateWhere | noless/cache_manager.py:145-158 | each of the four DELETE statements selects exactly the rows matching the given pattern and the given category, a missing or empty argument matching everything |
| CacheManagement.Delete | noless/cache_manager.py:145-158 | deleting removes exactly the doomed keys and leaves every other row unchanged |
| CacheManagement.DeleteCount | noless/cache_manager.py:158-161 | the number of rows deleted is the number of doomed rows |
| CacheManagement.Lookup | noless/cache_manager.py:98-107 | a lookup yields the stored value while `expires_at > now`, and None otherwise |
| CacheManagement.LiveCategories | noless/cache_manager.py:196-201 | a category is listed exactly when it has a live row |
| CacheManagement.StatsOf | noless/cache_manager.py:184-208 | the total is the number of rows, expired counts the rows with `expires_at < now`, valid is total minus expired, and each listed category counts its live rows |
| CacheManagement.ValidIncludesBoundary | noless/cache_manager.py:191-206 | the valid count is the live rows plus the rows expiring exactly now, which `get` does not return |
| CacheManagement.LiveRowCounted | noless/cache_manager.py:196-201 | every live row's category is listed with a count of at least one |
| CacheManagement.CacheManager.constructor | noless/cache_manager.py:16-56 | the TTL is the hours times 3600 and the rows already stored stay |
| CacheManagement.CacheManager.Set | noless/cache_manager.py:63-85 | a serialisable value replaces the key's row, created now and expiring after the TTL; a value JSON rejects leaves the table as it was |
| CacheManagement.CacheManager.Get | noless/cache_manager.py:87-110 | a value is returned only from a row of that key that has not expired, and every unexpired row's value is returned |
| CacheManagement.CacheManager.GetOrCompute | noless/cache_manager.py:112-130 | a value cached at the first clock reading `now` is returned without computing or changing the table; otherwise the computed value is returned and stored at the second reading `later` (when serialisable), and a `get` at `later` returns it when the TTL is positive |
| CacheManagement.CacheManager.Invalidate | noless/cache_manager.py:132-164 | exactly the rows matching the given pattern and category (every row when neither is given) are deleted, and their number is returned |
| CacheManagement.CacheManager.CleanupExpired | noless/cache_manager.py:166-182 | exactly the rows with `expires_at < now` are deleted, and their number is returned |
| CacheManagement.CacheManager.GetStats | noless/cache_manager.py:184-208 | the statistics of the current table at the given time |
| CacheManagement.CacheManager.Clear | noless/cache_manager.py:213-220 | the table is emptied |
| CacheManagement.GetAfterSet | noless/cache_manager.py:63-107 | after `set` with a positive TTL, `get` at the same time returns the value |
| CacheManagement.SetIsolated | noless/cache_manager.py:79-82 | `set` does not change what any other key looks up to |
| CacheManagement.CleanupPreservesLookups | noless/cache_manager.py:175-177 | cleanup never changes what `get` answers; a row expiring exactly now is kept by cleanup yet hidden by `get` |
| CacheManagement.InvalidateAllWithoutFilters | noless/cache_manager.py:157-158 | invalidating with neither pattern nor category empties the table |
| CacheManagement.InvalidateCategory | noless/cache_manager.py:153-156 | invalidating a category leaves no row of it and keeps every row of another category |
| CacheManagement.CacheRegistry.constructor | noless/cache_manager.py:224 | there is no manager before the first call |
| CacheManagement.CacheRegistry.GetCacheManager | noless/cache_manager.py:227-232 | the first call creates a manager with the default TTL over the stored rows; every later call returns that same manager |
| CacheManagement.SameInstance | noless/cache_manager.py:227-232 | two calls return the same manager |
| CodeMetricsAnalysis.EmptyCodeHasNoLines | noless/code_metrics.py:46-49 | empty code has no lines of code |
| CodeMetricsAnalysis.LinesPartition | noless/code_metrics.py:46-49 | the lines counted as code and the comment lines together are exactly the non-blank lines |
| CodeMetricsAnalysis.CommentsAreNonBlank | noless/code_metrics.py:100-110 | there are never more comment lines than non-blank lines |
| CodeMetricsAnalysis.CommentRatio | noless/code_metrics.py:100-110 | the comment ratio lies between 0.0 and 1.0 and is 0.0 when no line is non-blank |
| CodeMetricsAnalysis.Cleaned | noless/code_metrics.py:114-119 | the compared lines are as many as the lines counted as code |
| CodeMetricsAnalysis.DuplicatesAndDistinct | noless/code_metrics.py:121-128 | the duplicate count plus the number of distinct lines equals the number of compared lines |
| CodeMetricsAnalysis.DistinctHasNoDuplicates | noless/code_metrics.py:121-128 | code whose compared lines are pairwise different has no duplicates |
| CodeMetricsAnalysis.FindDuplicatedLines | noless/code_metrics.py:112-128 | the loop with its `seen` set counts the lines already seen earlier, which is never more than the lines of code |
| CodeMetricsAnalysis.DefinitionsCounted | noless/code_metrics.py:80-98 | the function and class counts include every definition of the tree, nested ones too |
| CodeMetricsAnalysis.FunctionComplexity | noless/code_metrics.py:59-72 | a function's complexity is at least 1 |
| CodeMetricsAnalysis.FunctionComplexityOfTree | noless/code_metrics.py:59-72 | a function's complexity is 1 plus its decision points, those of nested functions included |
| CodeMetricsAnalysis.Complexities | noless/code_metrics.py:57-72 | one complexity per function in walk order, each at least 1 |
| CodeMetricsAnalysis.Complexity | noless/code_metrics.py:51-78 | 0.0 for code that does not parse, 1.0 for parsed code without functions, and never below 1.0 for parsed code |
| CodeMetricsAnalysis.ScoreFunction | noless/code_metrics.py:59-71 | the inner walk loop computes the function's complexity |
| CodeMetricsAnalysis.CalculateComplexity | noless/code_metrics.py:51-78 | the loops compute the specified complexity |
| CodeMetricsAnalysis.TypeHintsCoverage | noless/code_metrics.py:130-152 | the coverage lies between 0.0 and 1.0; it is 0.0 for unparsable code and 1.0 for parsed code without functions; it is 1.0 exactly when every function has a hint |
| CodeMetricsAnalysis.Score | noless/code_metrics.py:169-190 | the quality score lies between 0 and 100 |
| CodeMetricsAnalysis.ScoreFallsWithDuplicates | noless/code_metrics.py:182-184 | more duplicated lines never raise the score |
| CodeMetricsAnalysis.ScoreRisesWithComments | noless/code_metrics.py:178-180 | a higher comment ratio never lowers the score |
| CodeMetricsAnalysis.ScoreRisesWithCoverage | noless/code_metrics.py:186-188 | a higher type-hint coverage never lowers the score |
| CodeMetricsAnalysis.ScoreFallsWithComplexity | noless/code_metrics.py:173-176 | a higher complexity never raises the score, and a complexity of at most 5 costs nothing |
| CodeMetricsAnalysis.Grade | noless/code_metrics.py:154-167 | the grade is one of A to F; it is A exactly from 90 and F exactly below 60 |
| CodeMetricsAnalysis.GradeMonotone | noless/code_metrics.py:154-167 | a higher score never gets a worse grade |
| CodeMetricsAnalysis.ScoreOf | noless/code_metrics.py:169-190 | with no stored metrics the defaults give a score of 100 |
| CodeMetricsAnalysis.UnparsedCodeScore | noless/code_metrics.py:16-44 | for code that does not parse, complexity, coverage, functions and classes are 0, so the score depends only on comments and duplicates |
| CodeMetricsAnalysis.CodeMetricsAnalyzer.constructor | noless/code_metrics.py:12-14 | a new analyzer holds no metrics |
| CodeMetricsAnalysis.CodeMetricsAnalyzer.Analyze | noless/code_metrics.py:16-44 | the analysis returns the metrics of the code and stores them |
| CodeMetricsAnalysis.CodeMetricsAnalyzer.QualityScore | noless/code_metrics.py:169-190 | the score of the stored metrics lies between 0 and 100 |
| CodeMetricsAnalysis.CodeMetricsAnalyzer.QualityGrade | noless/code_metrics.py:154-167 | the grade of the stored metrics is one of A to F |
| CodeMetricsAnalysis.FreshAnalyzerGradesA | noless/code_metrics.py:154-190 | an analyzer that has analysed nothing grades "A" |
| CodeValidator.ExtractCode | noless/code_validator.py:446-467 | extracted code is always stripped, and a reply without a fence can only be taken whole |
| CodeValidator.ExtractPythonFence | noless/code_validator.py:450-453 | code in a `python` fence is extracted exactly |
| CodeValidator.ExtractGenericFence | noless/code_validator.py:455-461 | code in a generic fence is extracted exactly when it looks like Python |
| CodeValidator.GenericIsNotPython | noless/code_validator.py:451 | a generic fence is never taken for a `python` fence |
| CodeValidator.NoBacktickNoFence | noless/code_validator.py:451-456 | text without a backtick has no fenced block |
| CodeValidator.ExtractPythonExample | test_fixes.py:59 | the `python`-fenced example gives the function it wraps |
| CodeValidator.ExtractGenericExample | test_fixes.py:60 | the generic-fenced example gives the function it wraps |
| CodeValidator.ExtractBareExample | test_fixes.py:61 | the four-line bare example is taken whole |
| CodeValidator.FixLines | noless/code_validator.py:375-387 | the issue list holds at most five lines, each starting with "- "; it fails exactly when the issues or static findings cannot be sliced |
| CodeValidator.FixPrompt | noless/code_validator.py:389-405 | the fix prompt quotes the code inside a `python` fence |
| CodeValidator.FixFrom | noless/code_validator.py:413-435 | code found by the attempts is non-empty and differs from the original |
| CodeValidator.FixFindsUsable | noless/code_validator.py:413-435 | the fixer finds code exactly when the first or the second attempt gives a usable reply, and a usable first reply wins |
| CodeValidator.FixCalls | noless/code_validator.py:413-435 | at most two attempts are made |
| CodeValidator.FixOutcome | noless/code_validator.py:364-444 | a review with nothing to fix is returned unchanged; otherwise only `improved_code` may change, and when set it is new, non-empty code; an error comes only from the issue list |
| CodeValidator.AttemptToFixIssues | noless/code_validator.py:364-444 | the fix loop returns the specified outcome after at most two model calls |
| CodeValidator.ReviewPromptShows | noless/code_validator.py:469-492 | the review prompt names the file type and quotes the code inside a `python` fence |
| CodeValidator.StaticIssues | noless/code_validator.py:139-142 | no static findings without the detector; otherwise the security findings followed by the performance findings |
| CodeValidator.Annotate | noless/code_validator.py:184-191 | the review keeps every other entry; a non-empty review with static findings gains `static_issues`; analysed metrics are stored under `metrics` |
| CodeValidator.FixStep | noless/code_validator.py:193-200 | the fixer runs only when there are issues and no improved code, and it changes nothing but `improved_code` |
| CodeValidator.ValidateAndImprove | noless/code_validator.py:107-219 | the method returns the specified outcome of a validation |
| CodeValidator.FinishReview | noless/code_validator.py:182-216 | the steps after the parse return the specified review or the exception raised |
| CodeValidator.ReviewedShape | noless/code_validator.py:182-216 | a completed review always has the review keys and a string `improved_code`, and one that is not valid offers non-empty improved code |
| CodeValidator.ShapedShape | noless/code_validator.py:209-216 | the returned value has the review shape |
| CodeValidator.OutcomeCases | noless/code_validator.py:107-219 | without a reviewer the code comes back unreviewed; a cached review is returned as it is; every other outcome has the review shape |
| CodeValidator.PerformanceFindingFailsDisplay | noless/code_validator.py:297-304 | as written, a review that carries a performance finding always fails in the display |
| CodeValidator.EmptyReviewIsUnreviewed | noless/code_validator.py:185-216 | an empty review with only metrics attached is displayed and shaped like no review |
| CodeValidator.PerformanceFindingDiscardsReview | noless/code_validator.py:139-219 | as written, whenever the error detector reports a performance issue, validation returns the code unreviewed and drops the review and any improved code |
| CodeValidator.SelfContainedReviewOutcome | noless/code_validator.py:182-210 | with the intended display, a review that brings its own code is returned with its findings and metrics attached; as written, one performance finding turns it into a failure |
| DependencyOptimization.DepNamesAreTheTable | noless/dependency_optimizer.py:12-43 | the walk order lists each table entry exactly once |
| DependencyOptimization.Cached | noless/dependency_optimizer.py:62-76 | checking dependencies keeps every cached module and adds exactly the checked ones whose package imports |
| DependencyOptimization.WithFrameworks | noless/dependency_optimizer.py:110-111 | the entries checked for frameworks are exactly those listing at least one framework |
| DependencyOptimization.FrameworksOf | noless/dependency_optimizer.py:109-113 | a framework is available exactly when some available table entry lists it |
| DependencyOptimization.MissingOf | noless/dependency_optimizer.py:123-130 | exactly the unavailable entries are missing, each with its install command and purpose |
| DependencyOptimization.CachingKeepsAvailability | noless/dependency_optimizer.py:62-76 | checking dependencies never changes which frameworks are available or which dependencies are missing |
| DependencyOptimization.FrameworkSet | noless/dependency_optimizer.py:112 | the frameworks of one entry as a set |
| DependencyOptimization.Members | noless/dependency_optimizer.py:124 | the names of the table walked so far as a set |
| DependencyOptimization.CachedStep | noless/dependency_optimizer.py:62-76 | checking one more dependency extends the cache as checking them together would, and does not change whether it is available |
| DependencyOptimization.FrameworksStep | noless/dependency_optimizer.py:110-112 | one more entry adds its frameworks exactly when it is available |
| DependencyOptimization.MissingStep | noless/dependency_optimizer.py:124-129 | one more entry joins the missing ones exactly when it is unavailable |
| DependencyOptimization.FrameworksAmongAll | noless/dependency_optimizer.py:109-113 | the available frameworks are among pytorch, tensorflow, keras and scikit-learn |
| DependencyOptimization.DependencyOptimizer.constructor | noless/dependency_optimizer.py:45 | the module cache starts empty |
| DependencyOptimization.DependencyOptimizer.RequireDependency | noless/dependency_optimizer.py:47-82 | a cached module is returned as it is; an unknown name raises ValueError; an importable package is cached and returned; otherwise ImportError with the install command, and the cache is unchanged |
| DependencyOptimization.DependencyOptimizer.HasDependency | noless/dependency_optimizer.py:84-99 | true exactly when the dependency is cached or imports; ValueError for an unknown name still propagates; the cache gains the dependency exactly when it imports |
| DependencyOptimization.DependencyOptimizer.FrameworksIfAvailable | noless/dependency_optimizer.py:110-112 | an entry's frameworks are gained exactly when it lists some and is available; entries without frameworks are not checked |
| DependencyOptimization.DependencyOptimizer.GetAvailableFrameworks | noless/dependency_optimizer.py:101-113 | the result is the set of frameworks of the available entries, and the cache gains exactly the importable entries that list frameworks |
| DependencyOptimization.DependencyOptimizer.GetMissingDependencies | noless/dependency_optimizer.py:115-130 | the result maps exactly the unavailable entries to their install command and purpose |
| DependencyOptimization.DependencyFor | noless/dependency_optimizer.py:174-182 | the five aliases map to their dependency, and any other framework name is used as it is |
| DependencyOptimization.RequireFramework | noless/dependency_optimizer.py:164-192 | the wrapped call runs exactly when the framework's dependency is available; otherwise ImportError naming the framework and its install command; an unknown dependency raises ValueError |
| DependencyOptimization.OptionalImport | noless/dependency_optimizer.py:195-211 | the module when it loads; when it does not, the fallback if one is given and ImportError otherwise; an unknown name raises ValueError |
| DependencyOptimization.FirstAvailable | noless/dependency_optimizer.py:268-270 | the index found is the first preference that is available; none exactly when no preference is |
| DependencyOptimization.RecommendedFramework | noless/dependency_optimizer.py:255-272 | the first available preference listed for that task, else the first available framework; None exactly when nothing is available; always an available framework |
| DependencyOptimization.ClusteringIgnoresScikitLearn | noless/dependency_optimizer.py:264-272 | as written, clustering with PyTorch and scikit-learn installed is recommended PyTorch |
| DependencyOptimization.ClusteringIntended | noless/dependency_optimizer.py:255-272 | with the framework name in the table, clustering is recommended scikit-learn whenever it is available |
| DependencyOptimization.UnknownTaskTakesFirst | noless/dependency_optimizer.py:268-272 | a task outside the table gets the first available framework |
| DependencyOptimization.AvailableModels | noless/dependency_optimizer.py:226-253 | the five task keys; PyTorch models exactly with pytorch, TensorFlow models exactly with tensorflow; KeyError exactly when "sklearn" is among the frameworks; no clustering models otherwise |
| DependencyOptimization.ModelsNeverRaise | noless/dependency_optimizer.py:247-250 | the installed frameworks never include "sklearn", so the scikit-learn branch never runs and never raises |
| DependencyOptimization.DependencyAwareConfig.constructor | noless/dependency_optimizer.py:217-219 | the model cache starts empty |
| DependencyOptimization.DependencyAwareConfig.GetAvailableModels | noless/dependency_optimizer.py:221-253 | after the first successful call the cached models are returned; the first computes them from the available frameworks and caches them |
| DependencyOptimization.DependencyAwareConfig.GetRecommendedFramework | noless/dependency_optimizer.py:255-272 | the recommendation over the available frameworks in the order the set lists them |
| DependencyOptimization.ValidateSetup | noless/dependency_optimizer.py:274-280 | the report lists the available frameworks and the missing dependencies as before the call, and is ready exactly when some framework is available |
| ErrorDetection.GetFix | noless/error_detection.py:132-141 | the fix hint differs from the generic "Review and fix this security issue" exactly for the five pattern categories |
| ErrorDetection.SecuritySeverities | noless/error_detection.py:12-44 | the table has five categories; secrets, eval and SQL injection are critical, shell commands and pickle are high, and each category has its own fix hint |
| ErrorDetection.PatternHits | noless/error_detection.py:61-71 | every line a pattern matches (case-insensitively) gives a finding of its category carrying that 1-based line number, and every finding carries a matching line in range |
| ErrorDetection.PatternHitsInLineOrder | noless/error_detection.py:61-71 | the findings of a pattern are in strictly increasing line order, so each matching line is reported exactly once per pattern |
| ErrorDetection.CategoryHits | noless/error_detection.py:60-71 | every finding of a category is that category's finding at a line of the code |
| ErrorDetection.TableHits | noless/error_detection.py:59-71 | every text finding carries a line number between 1 and the number of lines |
| ErrorDetection.TextFindingComplete | noless/error_detection.py:59-71 | whenever any pattern of any category matches a line, that category's finding for that line is reported |
| ErrorDetection.ScanPattern | noless/error_detection.py:61-71 | the line loop for one pattern collects exactly the pattern's findings in line order |
| ErrorDetection.ScanCategory | noless/error_detection.py:60-71 | the pattern loop collects exactly the category's findings, pattern by pattern |
| ErrorDetection.ScanTable | noless/error_detection.py:59-71 | the category loop collects exactly the text findings, category by category |
| ErrorDetection.HasTimeoutArg | noless/error_detection.py:125-130 | true exactly when some keyword argument is named `timeout` |
| ErrorDetection.CheckAstIssues | noless/error_detection.py:78-115 | the walk loop yields the tree findings, and nothing when the code does not parse |
| ErrorDetection.NodeIssues | noless/error_detection.py:86-110 | one node yields an assertion finding exactly when it is an `assert`, then a timeout finding exactly when it is an untimed request call |
| ErrorDetection.NodesAssertions | noless/error_detection.py:84-110 | over walked nodes, the assertion findings are as many as the assert statements and the missing-timeout findings as many as the untimed request calls |
| ErrorDetection.TreeFindingsCount | noless/error_detection.py:78-115 | each assert statement of the parsed tree gives exactly one assertion finding, and each untimed request call exactly one missing-timeout finding |
| ErrorDetection.TimeoutDetectorNeverFires | noless/error_detection.py:97-123 | since a call name is an attribute or an identifier, neither containing a dot, the timeout check never reports anything |
| ErrorDetection.RequestsGetNotReported | noless/error_detection.py:97-123 | `requests.get(url)` without a timeout is not reported |
| ErrorDetection.SecurityFindings | noless/error_detection.py:46-76 | the text findings come first, followed by the tree findings; unparsable code gives only the text findings |
| ErrorDetection.AnalyzeSecurity | noless/error_detection.py:46-76 | the security analysis returns exactly the specified findings |
| ErrorDetection.ListCallFindings | noless/error_detection.py:202-213 | one "inefficient_loop" finding for each `.append`, `.insert` or `.remove` call among the walked nodes, and nothing else |
| ErrorDetection.LoopFindingsCount | noless/error_detection.py:197-215 | a `for` loop is reported once for each list-modifying call anywhere in its body, nested loops included |
| ErrorDetection.CheckLoopPatterns | noless/error_detection.py:197-215 | the walk loop returns exactly the loop findings |
| ErrorDetection.GetNestingDepth | noless/error_detection.py:280-292 | the loop returns the longest `_parent` chain over the walk |
| ErrorDetection.NestingDepthIsZero | noless/error_detection.py:280-292 | no node has a `_parent`, so the depth is always 0 and the deep-nesting finding (threshold 4) never fires |
| ErrorDetection.OnlyLoopFindings | noless/error_detection.py:162-187 | every tree finding of the performance analyzer is an "inefficient_loop" finding: string concatenation, deep nesting and comprehensions never report |
| ErrorDetection.CheckPatterns | noless/error_detection.py:241-278 | at most three low-impact findings, with no duplicates; the wildcard-import, debug-print and redundant-conversion findings each appear exactly when their regex matches the code |
| ErrorDetection.PerformanceFindings | noless/error_detection.py:147-195 | the tree findings come before the regex findings; unparsable code gives only the regex findings |
| ErrorDetection.CheckNode | noless/error_detection.py:163-187 | the checks on one walked node return exactly its specified findings |
| ErrorDetection.AnalyzePerformance | noless/error_detection.py:147-195 | the performance analysis returns exactly the specified findings |
| ErrorDetection.Analyze | noless/error_detection.py:303-316 | the combined analysis returns the security findings and the performance findings |
| ErrorDetection.SecurityBlock | noless/error_detection.py:325-328 | one line per security finding, plus one more for each finding with a fix |
| ErrorDetection.PerformanceBlock | noless/error_detection.py:335-338 | one line per performance finding, plus one more for each finding with a suggestion |
| ErrorDetection.ReportSections | noless/error_detection.py:318-342 | the report starts with its title; the security section says "No issues found" exactly when there are no security findings and gives their number otherwise; the report has four fixed lines plus the two blocks |
| ErrorDetection.ReportListsEveryFinding | noless/error_detection.py:318-342 | the severity-and-message line of every security finding, and the impact-and-message line of every performance finding, appear in the report |
| ErrorMessaging.ParseSeverity | noless/error_messaging.py:7-12 | a severity read back from its text has that text as its value |
| ErrorMessaging.ParseSeverityValue | noless/error_messaging.py:7-12 | every severity is read back from its own value |
| ErrorMessaging.DetermineSeverity | noless/error_messaging.py:107-123 | CRITICAL exactly for the five listed names, ERROR exactly for the six listed names, WARNING for every other name, never INFO |
| ErrorMessaging.FormatError | noless/error_messaging.py:73-104 | the type and message are kept, the severity is the type's; description, suggestion and docs are the table entry's for a known type and the defaults (no docs) for an unknown one; a missing context becomes empty |
| ErrorMessaging.DocumentedIffKnown | noless/error_messaging.py:92-100 | a formatted error has documentation exactly when its type is in the suggestion table |
| ErrorMessaging.DisplayLines | noless/error_messaging.py:136-147 | the display has six lines, eight with documentation; the type, message, description and suggestion sit on their lines, the link last |
| ErrorMessaging.LearnMoreIsDistinct | noless/error_messaging.py:136-143 | none of the six fixed lines is the "Learn more" heading |
| ErrorMessaging.DisplayLearnMoreIff | noless/error_messaging.py:145-147 | the "Learn more" heading is shown exactly when there is documentation |
| ErrorMessaging.FormatForDisplay | noless/error_messaging.py:126-149 | the joined display opens with the error type, shows the message, and contains the documentation link whenever there is one |
| ErrorMessaging.KnownTypeShowsLearnMore | noless/error_messaging.py:145-147 | every error type of the table is displayed with its "Learn more" link |
| ErrorMessaging.ToDict | noless/error_messaging.py:179-187 | the dict has exactly the keys type, severity, message, suggestion and line |
| ErrorMessaging.FromDict | noless/error_messaging.py:179-187 | a record read back from a dict agrees with that dict on every key `to_dict` writes |
| ErrorMessaging.ToDictRoundTrip | noless/error_messaging.py:155-187 | the validation error can be read back unchanged from its dict |
| ErrorMessaging.Location | noless/error_messaging.py:190 | the location is empty exactly when the line number is None or 0, and " (line n)" otherwise |
| ErrorMessaging.ToString | noless/error_messaging.py:189-191 | the text opens with the bracketed severity and the type, and contains the message and the suggestion |
| ErrorMessaging.ToStringLocation | noless/error_messaging.py:189-191 | the text shows " (line n)" for a truthy line number and is that of an error without a line otherwise; it always contains the message and the suggestion |
| ErrorMessaging.MarkCompleted | noless/error_messaging.py:225-235 | only the last step changes: it becomes COMPLETED and takes the result when the result is truthy; with no steps nothing changes |
| ErrorMessaging.MarkFailed | noless/error_messaging.py:237-246 | only the last step changes: it becomes FAILED with the error; with no steps nothing changes |
| ErrorMessaging.MarkKeepsNumbering | noless/error_messaging.py:216-246 | completing or failing a step never renumbers the steps |
| ErrorMessaging.Percentage | noless/error_messaging.py:248-250 | the percentage is current/total times 100, between 0 and 100 while no more steps were started than planned; ZeroDivisionError exactly when there are no steps |
| ErrorMessaging.PercentageBounds | noless/error_messaging.py:248-250 | current/total times 100 lies between 0 and 100 when 0 <= current <= total |
| ErrorMessaging.StepDict | noless/error_messaging.py:216-246 | a step entry has step, name, description and status, plus result and error exactly when they were set |
| ErrorMessaging.StepDicts | noless/error_messaging.py:258 | one entry per step, in order |
| ErrorMessaging.ProgressSummary | noless/error_messaging.py:252-259 | the summary has exactly its four keys holding the counters, the percentage and the steps; it fails exactly when there are no steps |
| ErrorMessaging.StatusIcon | noless/error_messaging.py:267-271 | the three statuses have their icons, and "?" is shown exactly for any other status |
| ErrorMessaging.StepLines | noless/error_messaging.py:273-277 | a step is shown by its heading, then its description and its error when they are non-empty |
| ErrorMessaging.StepHeadings | noless/error_messaging.py:266-277 | each step contributes one to three lines, and step i's heading is found at its place among them |
| ErrorMessaging.ReportLines | noless/error_messaging.py:263-279 | the report is the heading, a rule, the step lines in order, and a closing rule |
| ErrorMessaging.ProgressTracker.constructor | noless/error_messaging.py:197-206 | a new tracker has its step total, no steps started and no entries |
| ErrorMessaging.ProgressTracker.StartStep | noless/error_messaging.py:208-223 | the step counter grows by one and an IN_PROGRESS entry with that number is appended |
| ErrorMessaging.ProgressTracker.CompleteStep | noless/error_messaging.py:225-235 | the entries become those of marking the last one completed; the counters do not change |
| ErrorMessaging.ProgressTracker.FailStep | noless/error_messaging.py:237-246 | the entries become those of marking the last one failed; the counters do not change |
| ErrorMessaging.ProgressTracker.GetProgressPercentage | noless/error_messaging.py:248-250 | ZeroDivisionError exactly when there are no steps; otherwise between 0 and 100 while the tracker is consistent |
| ErrorMessaging.ProgressTracker.GetProgressSummary | noless/error_messaging.py:252-259 | fails exactly when there are no steps; otherwise lists the step entries |
| ErrorMessaging.ProgressTracker.FormatProgressReport | noless/error_messaging.py:261-280 | the loop builds the report lines of the tracker's state, joined by line breaks |
| ErrorMessaging.AppendStepLines | noless/error_messaging.py:266-277 | the loop over the steps appends every step's lines, in order |
| ErrorMessaging.AllStepLinesAppend | noless/error_messaging.py:266-277 | the report lines of one more step are those of the earlier steps followed by the new step's |
| ErrorMessaging.StartThenCompleteShowsCheck | noless/error_messaging.py:208-273 | a step started and then completed is reported with the check mark, its number and its name |
| FeedbackLoops.CodeStart | noless/feedback_loops.py:153-160 | there is a start position exactly when the reply holds a fence |
| FeedbackLoops.ExtractRefined | noless/feedback_loops.py:150-161 | the extracted code is stripped, and a reply without a fence gives the whole stripped reply |
| FeedbackLoops.PythonFenceFirst | noless/feedback_loops.py:153-154 | a reply that opens with a `python` fence has its code start right after it |
| FeedbackLoops.ExtractClosedFence | noless/feedback_loops.py:153-156 | code in a closed `python` fence is extracted exactly, in both readings |
| FeedbackLoops.UnclosedFenceDropsLast | noless/feedback_loops.py:153-156 | as written, the code after an unclosed `python` fence loses its last character |
| FeedbackLoops.UnclosedFenceLosesLastChar | noless/feedback_loops.py:153-156 | the reply "```python\nx = 1" gives "x =" as written and "x = 1" as intended |
| FeedbackLoops.UnclosedFenceIntended | noless/feedback_loops.py:153-160 | as intended, an unclosed fence gives everything after it, stripped |
| FeedbackLoops.ImprovementChecks | noless/feedback_loops.py:167-181 | there is one condition per improvement label |
| FeedbackLoops.SelectedMembers | noless/feedback_loops.py:165-183 | only labels are selected; every label whose condition holds is selected; nothing is selected exactly when no condition holds |
| FeedbackLoops.SelectedExactly | noless/feedback_loops.py:165-183 | with distinct labels, a label is selected exactly when its condition holds |
| FeedbackLoops.Improvements | noless/feedback_loops.py:163-183 | the list is never empty and has at most five labels; it is just "Code refined" exactly when no condition holds |
| FeedbackLoops.ImprovementsExactly | noless/feedback_loops.py:163-183 | each of the five labels is reported exactly when its condition holds |
| FeedbackLoops.SelectLabels | noless/feedback_loops.py:165-181 | the appends collect exactly the labels whose condition holds, in order |
| FeedbackLoops.ExtractImprovements | noless/feedback_loops.py:163-183 | the method returns the specified improvements |
| FeedbackLoops.UnchangedCodeIsJustRefined | noless/feedback_loops.py:163-183 | unchanged code shows no improvement but "Code refined" |
| FeedbackLoops.AllLabels | noless/feedback_loops.py:187-189 | every label of every recorded step is gathered |
| FeedbackLoops.Summarize | noless/feedback_loops.py:185-190 | "Code refined" exactly when no step has a label; otherwise the joined set is exactly the labels that occur |
| FeedbackLoops.AttemptAt | noless/feedback_loops.py:67-95 | a recorded step carries its iteration number, and without a validator it succeeds |
| FeedbackLoops.RefineFrom | noless/feedback_loops.py:66-104 | the loop records at most as many steps as iterations remain |
| FeedbackLoops.StepsNumbered | noless/feedback_loops.py:66-96 | the recorded steps are numbered one by one from the next iteration on |
| FeedbackLoops.StopsAtFirstSuccess | noless/feedback_loops.py:98-100 | the loop stops at the first successful step: every earlier step failed |
| FeedbackLoops.RunOutcome | noless/feedback_loops.py:98-112 | a run that returns a truthy success ends with a successful step and reports the iterations made; as written it returns the code that step started from, as intended the step's code |
| FeedbackLoops.IterationsWithinBound | noless/feedback_loops.py:66-67 | the iteration count returned never passes the bound |
| FeedbackLoops.RunIterationsBounded | noless/feedback_loops.py:63-112 | a run of `refine` that returns has made between one and `max_iterations` iterations |
| FeedbackLoops.NoIterationsRaises | noless/feedback_loops.py:63-112 | with no iteration allowed, `success` is never bound and `refine` raises |
| FeedbackLoops.NoValidatorOneStep | noless/feedback_loops.py:79-107 | without a validator the first step succeeds and the loop stops; as written the input code is returned, as intended the refinement |
| FeedbackLoops.AttemptWithoutValidator | noless/feedback_loops.py:83-95 | without a validator, an iteration whose generation succeeds records a successful step with the stock feedback |
| FeedbackLoops.FirstStepSucceeds | noless/feedback_loops.py:98-112 | a first step that succeeds is the only one, and the run reports one iteration |
| FeedbackLoops.FailureFeedsNextIteration | noless/feedback_loops.py:102-104 | a failed step hands its code and its feedback to the next iteration |
| FeedbackLoops.IterativeFeedbackLoop.constructor | noless/feedback_loops.py:25-42 | a new loop keeps its settings and has an empty history |
| FeedbackLoops.IterativeFeedbackLoop.Refine | noless/feedback_loops.py:44-112 | the history gains exactly the steps of this run; the result is the run's outcome; at most `max_iterations` model calls are made |
| FeedbackLoops.IterativeFeedbackLoop.Loop | noless/feedback_loops.py:63-112 | the while loop appends the run's steps to the history and returns its outcome |
| FeedbackLoops.Extension | noless/feedback_loops.py:286 | extending by a list adds its items, by a string its characters, by a dict its keys in insertion order; any other value raises TypeError |
| FeedbackLoops.ValidateComprehensive | noless/feedback_loops.py:263-303 | overall success exactly when there is no issue; the execution result is stored; a failed execution adds its feedback as the last issue; without a static analyzer only that feedback can be an issue; without a lint checker there are no warnings |
| FeedbackLoops.ComprehensiveIssues | noless/feedback_loops.py:282-301 | the issues are the static issues followed by a failed execution's feedback, and the validation then fails |
| FeedbackLoops.ComprehensiveDictIssues | noless/feedback_loops.py:284-286 | static issues given as a dict contribute its keys, in insertion order, followed by a failed execution's feedback, and the validation then fails |
| FewShotPrompting.PlainBody | noless/few_shot_prompting.py:189-190 | repr leaves text without quotes, backslashes or control characters unchanged between its quotes |
| FewShotPrompting.PlainRepr | noless/few_shot_prompting.py:189-190 | such plain text is shown between single quotes and otherwise as it is |
| FewShotPrompting.ReprAll | noless/few_shot_prompting.py:189-190 | each list item is shown by its own repr, in order |
| FewShotPrompting.BoolText | noless/few_shot_prompting.py:188 | the `valid` flag is shown as the JSON literal true or false |
| FewShotPrompting.NumberedAppend | noless/few_shot_prompting.py:183-191 | one more example adds its block, with the next number, at the end |
| FewShotPrompting.NumberedSplit | noless/few_shot_prompting.py:183-191 | example i is rendered as block number start + i, between the blocks before and after it |
| FewShotPrompting.NumberedContains | noless/few_shot_prompting.py:183-191 | every example's numbered block appears in the rendered text |
| FewShotPrompting.RenderExamples | noless/few_shot_prompting.py:182-192 | the loop yields the header followed by the numbered blocks of every example in table order |
| FewShotPrompting.GetCodeReviewExamples | noless/few_shot_prompting.py:179-192 | the review examples text: its header, then one numbered block per review example |
| FewShotPrompting.GetModelExamples | noless/few_shot_prompting.py:194-202 | the model examples text: its header, then one numbered block per model example |
| FewShotPrompting.GetTrainingExamples | noless/few_shot_prompting.py:204-212 | the training examples text: its header, then one numbered block per training example |
| FewShotPrompting.ReviewBlockShows | noless/few_shot_prompting.py:184-191 | a review block opens with its number and shows the `valid` flag as true or false |
| FewShotPrompting.DefinitionBlockShows | noless/few_shot_prompting.py:199-201 | a model or training block opens with its number and description and contains the example code |
| FewShotPrompting.Framing | noless/few_shot_prompting.py:261-267 | the framing contains the original prompt |
| FewShotPrompting.ValidationOpening | noless/few_shot_prompting.py:230-240 | the validation template starts with a line break followed by 'V' |
| FewShotPrompting.ReasoningOpening | noless/few_shot_prompting.py:218-228 | the reasoning template starts with a line break followed by 'T', so the two templates differ at their second character |
| FewShotPrompting.EnhancePromptTemplate | noless/few_shot_prompting.py:242-267 | the validation template leads exactly when the type is "validation", the reasoning template for every other type; the original prompt is kept |
| FewShotPrompting.StepByStepPrompt | noless/few_shot_prompting.py:269-287 | the prompt contains the code and the requested task |
| FewShotPrompting.BaseReviewPrompt | noless/few_shot_prompting.py:316-328 | the base review prompt contains the code and starts with "Review" |
| FewShotPrompting.BaseGenerationPrompt | noless/few_shot_prompting.py:352-360 | the base generation prompt starts with "Generate" |
| FewShotPrompting.EnhancePromptContains | noless/few_shot_prompting.py:261-267 | whatever the original prompt contains, the enhanced prompt contains too |
| FewShotPrompting.ComposeReviewContains | noless/few_shot_prompting.py:330-338 | whatever the base review prompt contains, the enhanced review prompt contains too |
| FewShotPrompting.ComposeReviewLeads | noless/few_shot_prompting.py:330-338 | the validation template leads exactly when chain of thought is on; without it, the examples lead exactly when few-shot is on |
| FewShotPrompting.ComposeReviewKeepsItsBase | noless/few_shot_prompting.py:330-338 | the enhanced review prompt contains its base prompt |
| FewShotPrompting.PrependShape | noless/few_shot_prompting.py:331-332 | prepending examples shows at the front exactly when few-shot is on, and the base is kept |
| FewShotPrompting.ComposeGenerationShape | noless/few_shot_prompting.py:340-365 | a generation prompt leads with the examples exactly when few-shot is on, keeps its base prompt, and opens with the header's or the base prompt's first letter |
| FewShotPrompting.GenerationWithoutValidation | noless/few_shot_prompting.py:340-365 | a generation prompt never starts with the validation template: chain of thought is not applied to it |
| FewShotPrompting.GenerationWithoutReasoning | noless/few_shot_prompting.py:340-365 | a generation prompt never starts with the reasoning template either |
| FewShotPrompting.ModelExamplesLead | noless/few_shot_prompting.py:194-202 | the model examples text opens with its header |
| PromptEnhancement.ReviewExamplesLead | noless/few_shot_prompting.py:179-192 | the review examples text opens with its header |
| PromptEnhancement.ReviewPromptHasCode | noless/few_shot_prompting.py:330-338 | the enhanced review prompt contains the code under review |
| PromptEnhancement.GenerationPromptExamplesLead | noless/few_shot_prompting.py:340-365 | the enhanced generation prompt opens with the model examples exactly when few-shot is on |
| PromptEnhancement.GenerationPromptKeepsBase | noless/few_shot_prompting.py:340-365 | the enhanced generation prompt contains its base prompt |
| PromptEnhancement.GenerationPromptPlain | noless/few_shot_prompting.py:340-365 | the enhanced generation prompt never opens with the validation template |
| OutputFiltering.Preview | noless/output_filtering.py:54-55 | a preview of the first lines is a prefix of the content, and is the whole content when it has no more lines than asked for |
| OutputFiltering.LineCount | noless/output_filtering.py:106 | the number of lines reported is one more than the number of line breaks |
| OutputFiltering.CodePreview | noless/output_filtering.py:54-57 | code of at most ten lines is previewed whole; longer code is previewed as its first ten lines followed by the truncation note |
| OutputFiltering.ExtractGrade | noless/output_filtering.py:125-130 | the grade is the metrics' `grade` entry, and "unknown" when the result has no metrics |
| OutputFiltering.FilterValidationResult | noless/output_filtering.py:28-72 | FULL mode returns the result unchanged; ANALYSIS_ONLY keeps exactly `valid`, `issues`, `suggestions`, `metrics` and `static_issues`, copying those the result has, and never `improved_code`; DRY_RUN and SUMMARY are their projections below |
| OutputFiltering.DryRunValidation | noless/output_filtering.py:49-59 | a result without truthy improved code is returned as it is; otherwise `improved_code` is removed, its preview added, and every other entry kept; improved code that is not a string raises |
| OutputFiltering.SummaryValidation | noless/output_filtering.py:61-69 | the summary has exactly its five keys, counts equal to the lengths of the issue and suggestion lists, `has_improvements` the truthiness of the improved code; it fails exactly when a length or the grade cannot be taken |
| OutputFiltering.SummaryWithoutMetrics | noless/output_filtering.py:61-69 | a result without metrics, issues or suggestions summarises to grade "unknown" and zero issues |
| OutputFiltering.FilePreview | noless/output_filtering.py:103-108 | each file preview has exactly `preview`, `total_lines` and `truncated`; the line count is one more than the line breaks, and `truncated` holds exactly when there are more than fifteen lines |
| OutputFiltering.FilePreviews | noless/output_filtering.py:100-108 | previews are made for exactly the files whose content is a string, each the preview of that content |
| OutputFiltering.CollectPreviews | noless/output_filtering.py:100-108 | the loop over the file contents builds exactly the previews of the string contents |
| OutputFiltering.AllValid | noless/output_filtering.py:117-119 | `all()` over the results in insertion order fails only with AttributeError |
| OutputFiltering.AllValidDecided | noless/output_filtering.py:117-119 | `all()` is true exactly when every result passes, and raises exactly when a result that is not a dict comes before any failing one |
| OutputFiltering.ValidationStatus | noless/output_filtering.py:117-119 | results that are not a dict raise; the status is "passed" exactly when every result's `valid` is truthy; it raises exactly when, in insertion order, a non-dict result precedes the first failing one; with only dict results it is "needs_attention" otherwise |
| OutputFiltering.EveryKeyVisited | noless/output_filtering.py:117-119 | a pass over the insertion order sees every result, so passing in order is passing for every key |
| OutputFiltering.FirstResultDecides | noless/output_filtering.py:117-119 | the same results give "needs_attention" or AttributeError depending on which comes first |
| OutputFiltering.NoResultsPass | noless/output_filtering.py:117-119 | with no validation results the status is "passed" |
| OutputFiltering.FilterGenerationResult | noless/output_filtering.py:74-123 | FULL mode returns the result unchanged; ANALYSIS_ONLY has exactly its three keys; DRY_RUN carries the previews of the string file contents, and raises when the contents are not a dict; SUMMARY raises when `len(files_created)` does, then when the status does, and otherwise has exactly its four keys with the success flag, the project directory, the file count and the validation status |
| OutputFiltering.Capped | noless/output_filtering.py:288-298 | it raises exactly when the limit is not an integer or the value cannot be sliced; a capped list is a prefix of the result's list no longer than the limit, the note is added exactly when the list was longer, and every other entry is kept |
| OutputFiltering.CappedValue | noless/output_filtering.py:288-298 | the capped list is the slice of the result's list at the limit; the note is present exactly when the list was longer and reads "N more" followed by the noun |
| OutputFiltering.OutputSelector.constructor | noless/output_filtering.py:252-262 | every part is included, ten issues and five suggestions are shown |
| OutputFiltering.OutputSelector.Configure | noless/output_filtering.py:264-268 | every known setting named in the arguments takes its new value, the others keep theirs, and unknown names are ignored |
| OutputFiltering.OutputSelector.FilterResult | noless/output_filtering.py:270-308 | it raises exactly when an included list's limit or value cannot be sliced; otherwise `valid` is the result's, and the code, the metrics and the two analyses are present exactly when their setting is truthy, holding the result's value; the issues and suggestions are present exactly when included |
| OutputFiltering.IncludeIf | noless/output_filtering.py:282-304 | an included entry holds the result's value and every other entry is kept |
| OutputFiltering.IssuesCapped | noless/output_filtering.py:288-292 | it raises exactly when the issues are included and cannot be capped; the issues are present exactly when included, and no other entry changes |
| OutputFiltering.CappedLists | noless/output_filtering.py:288-298 | it raises exactly when an included list cannot be capped; the issues and suggestions are present exactly when included, and no other entry changes |
| OutputFiltering.Selection | noless/output_filtering.py:270-308 | it raises exactly when an included list cannot be capped; otherwise `valid` is the result's and each part is present exactly when its setting is truthy, the code, metrics and analyses with the result's values |
| OutputFiltering.Head | noless/output_filtering.py:282-286 | the code and metrics are present exactly when included, with the result's values, and nothing else is |
| OutputFiltering.Tail | noless/output_filtering.py:300-306 | `valid` is the result's; the analyses are present exactly when included, with the result's values; nothing earlier is dropped |
| OutputFiltering.TailKeeps | noless/output_filtering.py:300-306 | the analyses and `valid` leave every other entry as it was |
| OutputFiltering.CappedListsIssues | noless/output_filtering.py:288-292 | with issues included and a limit n, the first n issues are kept, and the "N more issues" note appears exactly when there were more than n |
| OutputFiltering.SelectionCapsIssues | noless/output_filtering.py:288-292 | in the whole filtered result the issues are the first n, and the note, counting the issues left out, appears exactly when there were more than n |
| OutputFiltering.CappedList | noless/output_filtering.py:288-298 | capping a list at n keeps its first n items and adds the "N more" note exactly when it was longer |
| OutputFiltering.CappedListsSuggestions | noless/output_filtering.py:294-298 | with suggestions included and a limit n, the first n suggestions are kept, and the "N more suggestions" note appears exactly when there were more than n |
| OutputFiltering.SelectionCapsSuggestions | noless/output_filtering.py:294-298 | in the whole filtered result the suggestions are the first n, and the note appears exactly when there were more than n |
| ResponseParsing.CloseFrom | noless/code_validator.py:564-586 | the index found is the first from the start at which the depth counted outside strings returns to 0; none exactly when the depth never does |
| ResponseParsing.ObjectSpan | noless/code_validator.py:556-589 | a span found starts at a `{` and ends inside the text |
| ResponseParsing.ScanObjectSpan | noless/code_validator.py:557-589 | the scan loop, with its escape and in-string flags and its `break`, finds exactly the specified span |
| ResponseParsing.QuotedStringIsNeutral | noless/code_validator.py:567-577 | a quoted string, escaped quotes and braces included, changes neither the depth nor the in-string flag |
| ResponseParsing.EscapedCharIsSkipped | noless/code_validator.py:567-573 | a backslash makes the scanner skip the next character, whatever it is |
| ResponseParsing.DepthPositiveBeforeClose | noless/code_validator.py:579-586 | until the scan closes, the depth after each character from the opening brace on is positive |
| ResponseParsing.FirstBrace | noless/code_validator.py:557 | the scan starts at the first `{` of the text |
| ResponseParsing.SpanShape | noless/code_validator.py:556-589 | a recovered span runs from the first `{` to a `}` read outside strings and unescaped, at which the depth drops from 1 to 0 |
| ResponseParsing.FencedBlock | noless/code_validator.py:549-554 | a fenced block is found only after an opening fence with its tag; the block holds no fence and neither starts nor ends with whitespace |
| ResponseParsing.RepairKeepsSkeleton | noless/code_validator.py:594 | the trailing-comma repair deletes nothing but commas and whitespace |
| ResponseParsing.RepairWithoutTrailingComma | noless/code_validator.py:594 | text without a trailing comma is left unchanged by the repair |
| ResponseParsing.RepairRemovesLeadingTrailingComma | noless/code_validator.py:594 | a comma followed only by whitespace and a closing bracket is removed together with that whitespace |
| ResponseParsing.FlatObjectFrom | noless/code_validator.py:601 | the match found is the leftmost `{`, followed by no brace up to the next `}`; none exactly when no position matches |
| ResponseParsing.FlatObjectShape | noless/code_validator.py:601 | the flat match has braces at both ends and no brace between them |
| ResponseParsing.FirstParsing | noless/code_validator.py:538-608 | the index found is that of the first candidate that parses; none exactly when no candidate parses |
| ResponseParsing.FirstCandidateParseFirstSuccess | noless/code_validator.py:538-608 | recovery fails exactly when no candidate (whole text, fenced block, span, repaired span, flat object) parses, and otherwise returns the first that does |
| ResponseParsing.DirectParseWins | noless/code_validator.py:542-546 | text that parses as it stands is returned as parsed |
| ResponseParsing.RecoverAt | noless/code_validator.py:538-608 | once every earlier candidate has failed, a candidate that parses is the result |
| ResponseParsing.FenceStageWins | noless/code_validator.py:548-554 | when the whole text fails and its `json` block parses, that parse is the result |
| ResponseParsing.SpanStageWins | noless/code_validator.py:556-598 | when the earlier stages fail, the first span candidate that parses is the result |
| ResponseParsing.FlatStageWins | noless/code_validator.py:600-606 | when the earlier stages fail and the flat object parses, that parse is the result |
| ResponseParsing.AllStagesFail | noless/code_validator.py:538-608 | when every candidate fails, recovery returns None |
| ResponseParsing.FenceStageIsFirstSuccess | noless/code_validator.py:548-554 | the fence stage fails exactly when its candidates all fail, and otherwise returns the block's parse |
| ResponseParsing.RecoverJsonIsFirstSuccess | noless/code_validator.py:538-608 | the stages as written, with their early returns, agree with the first-successful-candidate reference |
| ResponseParsing.TryFence | noless/code_validator.py:548-554 | the fence stage's search and parse return the specified value |
| ResponseParsing.TrySpan | noless/code_validator.py:556-598 | the span stage's scan and its two parses return the specified value |
| ResponseParsing.TryFlat | noless/code_validator.py:600-606 | the flat stage's search and parse return the specified value |
| ResponseParsing.RobustJsonParse | noless/code_validator.py:538-608 | the robust parse, with its four stages tried in order, returns the specified recovery |
| ResponseParsing.CompleteReview | noless/code_validator.py:501-509 | a dict gains `valid`=True, `issues`=[] and `suggestions`=[] where missing and keeps every other entry; a list or a string passes exactly when it already contains the three keys and is then unchanged; any other value raises |
| ResponseParsing.FallbackFindings | noless/code_validator.py:511-536 | at most five issues and five suggestions, never both empty; a reply mentioning no error, bug or issue gives only the stock suggestion |
| ResponseParsing.ScanLines | noless/code_validator.py:524-530 | the line loop sends each eligible line to the issues or, failing that, to the suggestions |
| ResponseParsing.HeuristicReview | noless/code_validator.py:511-536 | the fallback, with its limit of five entries per list, builds the specified review |
| ResponseParsing.FindingsComeFromLines | noless/code_validator.py:524-530 | every recorded issue is the entry of an issue line of the reply, and every suggestion that of a suggestion line |
| ResponseParsing.FindingsAtMostLines | noless/code_validator.py:524-530 | no line is recorded twice: issue and suggestion entries together number at most the lines |
| ResponseParsing.EntryLengths | noless/code_validator.py:526-530 | every recorded entry has between 11 and 150 characters |
| ResponseParsing.ParseReviewResponse | noless/code_validator.py:494-536 | the method returns the specified review or the exception raised |
| ResponseParsing.ReviewHasKeys | noless/code_validator.py:494-536 | a recovered dict, and any reply that recovers nothing truthy, give a dict with `valid`, `issues` and `suggestions`; the fallback is valid and its two lists are not both empty; only a truthy non-dict value can raise |
| ReviewerSelection.SortByName | noless/code_validator.py:91 | sorting by name keeps exactly the same models |
| ReviewerSelection.SortByNameSorted | noless/code_validator.py:91 | the sorted models are in non-decreasing name order |
| ReviewerSelection.MatchFrom | noless/code_validator.py:85-95 | the position found is the first from the start whose model is eligible (not the generation model) and matches the marker in its size or name, ignoring case; none exactly when no such model follows |
| ReviewerSelection.OtherFrom | noless/code_validator.py:97-100 | the position found is the first whose model is not the generation model; none exactly when every model is |
| ReviewerSelection.SelectAmong | noless/code_validator.py:61-105 | no reviewer exactly when nothing is installed; otherwise the reviewer is an installed model |
| ReviewerSelection.SelectReviewer | noless/code_validator.py:61-105 | with the source's size markers: no reviewer exactly when nothing is installed, otherwise an installed model |
| ReviewerSelection.ByPriorityInstalled | noless/code_validator.py:89-95 | a model found by the marker scan is installed |
| ReviewerSelection.ScanForMarker | noless/code_validator.py:91-95 | the inner loop finds the first eligible model matching the marker |
| ReviewerSelection.ScanMarkers | noless/code_validator.py:89-95 | the marker loop returns what the marker scan specifies |
| ReviewerSelection.ScanForOther | noless/code_validator.py:97-100 | the fallback loop finds the first model that is not the generation model |
| ReviewerSelection.SelectReviewerModel | noless/code_validator.py:61-105 | the method selects the reviewer that `SelectReviewer` specifies |
| ReviewerSelection.ResolveReviewer | noless/code_validator.py:47-59 | a non-empty requested model that is installed is honoured; otherwise the automatic choice is used; the result is always an installed model, and there is none only when nothing is installed |
| ReviewerSelection.SelectedIsLeastMatch | noless/code_validator.py:89-95 | when marker k is the first that some eligible model matches, the reviewer is a model matching marker k, and its name is the least among all such models |
| ReviewerSelection.FallbackIsFirstOther | noless/code_validator.py:97-100 | when no marker matches any eligible model, the reviewer is the first installed model, in installation order, that is not the generation model |
| ReviewerSelection.SingleOtherModelSelected | noless/code_validator.py:61-105 | with one installed model besides the generation model, that model is the reviewer, whatever the size labels say |
| Schemas.ReviewRecordDefaults | noless/schemas.py:7-23 | an issue built from its required fields has no line and no suggestion; a suggestion's priority defaults to "medium" |
| Schemas.CodeReviewResultDefaults | noless/schemas.py:26-33 | a review built without arguments is valid, with no issues, no suggestions, no improved code and an empty summary |
| Schemas.CodeMetricsDefaults | noless/schemas.py:89-98 | metrics built from the five required fields have no duplicated lines and a type-hint coverage of 0.0 |
| Schemas.FindingRecordDefaults | noless/schemas.py:101-118 | a security finding has no line and no fix by default; a performance finding has impact "medium" and no location or suggestion |
| Schemas.ResponseRecordDefaults | noless/schemas.py:121-138 | an LLM response defaults to not-valid JSON with no content and no parsing error; a generation result starts with no files, warnings, errors or validation results |

## Left out

- Console output: the rich tables, panels, spinners and animations, every `print`, and the `time.sleep` pauses of the validator. `_display_review_results` appears only as the predicate saying when it raises.
- The language-model client (`OllamaClient`) and the model registry are outside the model. Generation and review are oracles that may fail. The installed models are a parameter.
- `json.loads`, `json.dumps`, `re.search`, `ast.parse`, `import_module` and `exec` are oracles. Their own semantics (RFC 8259 parsing, Python regexes, the Python grammar) are not modelled. The JSON text stored by the cache is kept as the value it decodes to; `json.loads(json.dumps(v))` is taken to give `v` back.
- `ExecutionFeedbackValidator` runs untrusted code. It is the `execute` oracle of the combined validation. `HybridValidation.validate_with_feedback` only formats that result and is not modelled.
- The validator's cache key uses Python's per-process randomised `hash`. The cache is therefore modelled as a lookup that may hit or miss. The md5 key helper `_generate_key` of the cache manager is not modelled, because no modelled operation calls it.
- SQLite itself, the database file, directory creation and the I/O errors that make the cache methods print a warning and return None, 0 or `{}`. The table is a map and each clock reading is a parameter: `now` for the operations that read the clock once; `get_or_compute` reads it in its `get` (`now`) and again in its `set` (`later`); `get_stats` reads it twice, both readings being `now`.
- Floating point: ratios, coverage, the score and the percentage are `real`. The `:.2f`/`:.1%` formatting in `CodeMetricsAnalyzer.format_report` and in the validator's metrics panel is not modelled.
- `str.lower`/`str.upper` are modelled on ASCII letters only. `repr` of a string escapes only quotes, backslashes and control characters, so non-printable Unicode is left out. Digits are ASCII `0`-`9`: Python's `\d` and `int()` also accept other Unicode digits and underscores, and those are not modelled.
- The error messages of `int()` and of the tuple unpacking in `bump_version` are all modelled as the exception name "ValueError".
- Python dicts keep insertion order and a `map` does not. Where the order matters, it is a parameter listing the keys once (`Schemas.KeyOrder`): the order in which `all()` visits the validation results in `OutputFiltering.ValidationStatus`, and the order in which `list.extend` adds a dict's keys in `FeedbackLoops.Extension`.
- The order of `list(set(...))` in `get_available_frameworks` is the `arrange` parameter. `_summarize_improvements` is stated through the membership of its labels.
- `DependencyOptimizer.print_installation_summary` only prints and is not modelled.
- `DryRunGenerator` in noless/output_filtering.py returns fixed preview dicts and is not modelled.
- Context values in prompts are strings. A context value of another type would be shown through its Python `str`, which is not modelled.
- Issues given as dicts rather than strings are shown through the `repr` oracle.
- bump_version.py `main`: the argument count check, the existence check on setup.py, reading and writing the file, and the exit codes. The file contents and the answer to the prompt are parameters of `VersionBump.BumpSetup`.
- PromptEnhancement.PromptEnhancer.EnhanceReviewPrompt: of the review prompt with the literal example table, only that it contains the code is proved (`PromptEnhancement.ReviewPromptHasCode`). Which text leads it (the validation template exactly with chain of thought, otherwise the examples exactly with few-shot) is proved for `FewShotPrompting.ComposeReview` over any examples text that opens with the review header, and that the literal table opens with that header is proved too (`PromptEnhancement.ReviewExamplesLead`). Proving the leading text for the literal table and the literal template together takes more than the 2,000,000 resource limit the project is verified under.
- PromptEnhancement.PromptEnhancer.EnhanceGenerationPrompt: the leading examples, the kept base prompt and the absence of the validation template are proved for the literal prompt; its first letter and the absence of the reasoning template are proved for `FewShotPrompting.ComposeGeneration` over any examples text that opens with the model header, which the literal one does (`FewShotPrompting.ModelExamplesLead`).
- OutputFiltering.OutputSelector.Configure: only the nine settings count as attributes. Python's `hasattr` would also accept the names of the object's methods, such as `filter_result`, and `configure` would then overwrite a method. That case is not modelled.
- Module state shared across instances (`DependencyOptimizer._loaded_modules`, the global cache manager) is an object passed to the operations that use it.

## Findings

| source | as written | input that shows it | evidently intended | confidence | as-written member | corrected member |
|---|---|---|---|---|---|---|
| noless/code_validator.py:297-304, 139-219 | the display reads `issue.severity` of every static finding that has a `type`; a `PerformanceIssue` has `type` but no `severity`, so the display raises and `validate_and_improve` discards the whole review | any code in which the performance checks find something, such as a `for` loop whose body calls `.append` | show performance findings through their `impact`, so the review and its improved code are returned | not executed | CodeValidator.PerformanceFindingDiscardsReview | CodeValidator.SelfContainedReviewOutcome |
| noless/feedback_loops.py:153-156 | after a `python` fence with no closing fence, `find` returns -1 and the slice drops the last character | the reply "```python\nx = 1" gives "x =" | everything after the fence, stripped: "x = 1" | not executed | FeedbackLoops.UnclosedFenceLosesLastChar | FeedbackLoops.UnclosedFenceIntended |
| noless/feedback_loops.py:98-107 | on the successful iteration `refine` breaks before updating `current_code`, so it returns the code that iteration started from, not the refinement that passed | no validator, any code: the first refinement succeeds and the input code is returned | return the code of the successful step | not executed | FeedbackLoops.NoValidatorOneStep | FeedbackLoops.RunOutcome |
| noless/dependency_optimizer.py:257-272 | the recommendation table names scikit-learn by its package name "sklearn", which is never an available framework name ("scikit-learn") | clustering with PyTorch and scikit-learn installed, listed in that order: "pytorch" is recommended | recommend "scikit-learn" for clustering whenever it is installed | not executed | DependencyOptimization.ClusteringIgnoresScikitLearn | DependencyOptimization.ClusteringIntended |

Dead code kept as written: nothing in noless/error_detection.py sets `_parent`, so nesting depth is always 0 and the `deep_nesting` and `string_concat` findings never fire (`ErrorDetection.NestingDepthIsZero`, `ErrorDetection.OnlyLoopFindings`). Call names of attribute calls are their last attribute only, so the missing-timeout check never fires (`ErrorDetection.TimeoutDetectorNeverFires`). The scikit-learn branch of `get_available_models` would raise `KeyError` but cannot run (`DependencyOptimization.ModelsNeverRaise`).
