# actionScan: extraction and risk classification of GitHub Actions references

actionScan inventories the third-party GitHub Actions that a corpus of
repositories invokes and rates each invocation for supply-chain risk. This
project models its two computational components and proves what they
compute:

- **Extraction** (`action_extractor.py`). `extract_actions` walks every
  repository's already-loaded workflow documents: jobs, a job's own `uses`
  (a reusable-workflow call), then the job's steps and their `uses`. For each
  invocation site, `process_action` builds one normalised reference record:
  - the name/version split at `@`;
  - the commit-pin test;
  - the secrets the configuration mentions (`extract_secrets`);
  - the first-party test.
  It then bumps the corpus counters in place (total, pinned/unpinned, usage
  per name, the set of names) and appends the record to the inventory.
  Finally the fifty most used actions are ranked.
- **Classification and statistics** (`report_generator.py`).
  `classify_actions` gives each record an additive risk score capped at 100
  and a Low/Medium/High tier. It runs three table-driven capability
  detectors (privileged, file-system, network), which collect reasons, and a
  deprecation heuristic. `identify_production_workflows` then tags
  production records. `generate_statistics` computes the counts, the risk
  histogram, the production sub-counts, the twenty most used actions, the
  mean score per repository and the ten riskiest repositories.

Files:

- `wrappers.dfy` — `Option`.
- `text.dfy` — ASCII lower-casing, substring search, `str.split`, decimal
  rendering, character classes.
- `yaml_value.dfy` — the loaded YAML tree and Python's `in`, `[]`,
  `.get`, `.items()` and iteration on it, with the exception each can raise.
- `ranking.dfy` — counting, filtering, de-duplication, `Counter`, and the
  stable `sorted(..., reverse=True)[:n]`.
- `references.dfy` — one reference record and `extract_secrets`.
- `extractor.dfy` — the walk (as pure functions, then as the `Inventory`
  class that performs it step by step) and the counters.
- `classifier.dfy` — the score, the tiers, the detectors, deprecation,
  production tagging, and `classify_actions` on an array.
- `statistics.dfy` — `generate_statistics` and the classify-then-summarise
  pipeline.

Every regular expression in the tables is a literal. So `re.search(p, s,
re.IGNORECASE)` is modelled as "lower-cased `p` occurs in lower-cased `s`"
(`Text.MatchesCI`). Two patterns are not literals:

- `v[0-9]+.*` is modelled as the regex it is (`Classifier.VersionPattern`)
  and proved equal to "a `v` or `V` followed by a digit".
- The secret expression is modelled as a greedy scanner
  (`References.SecretAt`). Its `\s` is Python's `str.isspace`.

Points of the code the model takes exactly as written:

- The name is the text before the **first** `@`, and the version is the
  second `@`-separated piece, or `unspecified` when there is no `@`
  (action_extractor.py:127-129).
- The +10 production term of the score looks only at the workflow file
  name and path (report_generator.py:91-95). The job name is consulted only
  by the separate production-tagging pass (report_generator.py:188-199;
  `Classifier.JobNameTagsWithoutBonus`).
- An explicit `secrets` entry is read from every configuration passed to
  `extract_secrets`, a step's as well as a job's (action_extractor.py:183-188).
- An exception is caught once per workflow document (the `try` at
  action_extractor.py:66 and its `except` at 93-94). A malformed job
  therefore ends the walk of the rest of its workflow, and the references
  already appended stay.
- The pin test is the one exception: the records carry the intended test
  (exactly forty lower-case hex characters), not the regex as written at
  action_extractor.py:132; see "## Findings" and "## Left out".

`total_repositories` and `repos_with_workflows` are bumped together
(action_extractor.py:61-62), so they are always equal; `Inventory.Valid`
includes this.

## Model

| member | source | states |
|---|---|---|
| Text.Split | action_extractor.py:127 | `str.split('@')`: at least one part, no part contains `@`, joining the parts with `@` gives back the string, and there is more than one part exactly when `@` occurs |
| Text.IndexOfFirst | action_extractor.py:127 | the first `@` of a string is found after a prefix that has none |
| Text.SplitOnce | action_extractor.py:127 | a string with exactly one `@` splits into the two parts either side of it |
| Text.NatToString | action_extractor.py:90 | the `{step_idx+1}` rendering is a non-empty string of decimal digits that denotes the number, with no leading zero |
| YamlValue.Lookup | action_extractor.py:81-82 | a key lookup in a mapping finds a value exactly when the key is present |
| YamlValue.Index | action_extractor.py:82 | `node["uses"]` succeeds exactly on a mapping that holds the key, and then returns the value stored under it |
| References.SplitReference | action_extractor.py:127-129 | without `@`: the whole string and "unspecified"; with `@`: name and version contain no `@`, and the reference is name@version, or starts with name@version@ |
| References.PinnedExample | action_extractor.py:132 | a 40-character lower-case hexadecimal version is a pin |
| References.UnpinnedExamples | action_extractor.py:132 | `v4`, a 39-character hash and an upper-case hash are not pins |
| References.TrailingNewlineCountsAsPinned | action_extractor.py:132 | the pattern as written (`$`) accepts a hash followed by a newline, which the intended test rejects |
| References.PinTestsDifferOnlyOnNewline | action_extractor.py:132 | the intended and the as-written pin tests differ exactly on a pin followed by one final newline |
| References.SkipSpace | action_extractor.py:173 | a `\s*` run: every character skipped is whitespace, and it ends at a non-space or the end |
| References.SkipSpaceRun | action_extractor.py:173 | a whitespace run is skipped exactly to the first character that is not whitespace |
| References.SkipIdent | action_extractor.py:173 | a `[A-Za-z0-9_-]+` run: every character in it is an identifier character, and it ends at a non-identifier character or the end |
| References.SkipIdentRun | action_extractor.py:173 | the `[A-Za-z0-9_-]+` run stops exactly at the first character that is not an identifier character |
| References.SecretAt | action_extractor.py:173 | a match at `i` starts with `${{`, ends after `i` within the string, and captures a non-empty identifier |
| References.FindSecretsFrom | action_extractor.py:173 | every name `re.findall` returns is a non-empty identifier |
| References.FoundSecretNeedsMarkers | action_extractor.py:172-173 | a value from which a secret is extracted contains both `${{` and `secrets.` |
| References.SecretMarkersPrecheckIsExact | action_extractor.py:172 | the `"${{" in value and "secrets." in value` pre-test never hides a match |
| References.SecretAtSound | action_extractor.py:173 | what the scan reports at `i` is a `${{ ws secrets.NAME ws }}` occurrence ending where the scan says |
| References.SecretAtComplete | action_extractor.py:173 | every such occurrence at `i` is reported by the scan at `i`, with its name and end |
| References.SecretAtSpec | action_extractor.py:173 | the scan reports `(name, e)` at `i` exactly when `s[i..e]` is a secret expression naming `name` |
| References.ExpressionDollars | action_extractor.py:173 | a secret expression has `$` only as its first character, so two never overlap |
| References.FindsEveryExpression | action_extractor.py:173 | `re.findall` from `i` finds the name of every secret expression that starts at or after `i` |
| References.FoundNamesAreExpressions | action_extractor.py:173 | every name found from `i` is that of a secret expression at or after `i` |
| References.FindSecretsSpec | action_extractor.py:173 | a name is in `re.findall`'s result exactly when some secret expression in the string names it |
| References.ExpressionInContext | action_extractor.py:173 | an expression is found whatever text surrounds it (e.g. `Bearer ${{ secrets.T }}`) |
| References.TwoExpressionsFound | action_extractor.py:173 | `${{secrets.A}}-${{ secrets.B }}` and the like yield both names |
| References.ValueSecretsSpec | action_extractor.py:172-174 | with the marker pre-test, a value names exactly the secrets of its string's expressions, and a non-string value none |
| References.ExpressionSecretsSpec | action_extractor.py:170-174 | the secrets of a mapping are the names of the expressions in its string values |
| References.SectionSecretsSpec | action_extractor.py:169-181 | the secrets of `with` or `env` are the names of the expressions in its string values; a missing section, or one that is not a mapping, names none |
| References.EmptyWithNamesNoSecrets | action_extractor.py:169-174 | an empty `with` mapping names no secrets |
| References.SecretExpressionYieldsName | action_extractor.py:172-173 | for every identifier NAME, `${{ secrets.NAME }}` passes both substring tests and yields exactly `[NAME]` |
| References.TokenExpressionYieldsName | action_extractor.py:173 | `${{ secrets.GH_TOKEN }}` yields exactly `["GH_TOKEN"]` |
| References.SingleSecretStep | action_extractor.py:165-190 | a step whose one `with` value is `${{ secrets.NAME }}`, with no `env` or `secrets` section, requires exactly `[NAME]` |
| References.StringItemsSpec | action_extractor.py:187-188 | a list declaration contributes exactly its string elements |
| References.DeclaredSecretsShapes | action_extractor.py:184-188 | a `secrets` mapping contributes exactly its keys, a list exactly its string elements, the string `inherit` nothing |
| References.RequiredSecretsSpec | action_extractor.py:165-190 | the returned secrets have no duplicates and are exactly those of `with`, `env` and the declaration |
| References.ScanSection | action_extractor.py:169-181 | the loop over a `with`/`env` mapping collects the names found in its string values, in entry order; a missing or non-mapping section gives none |
| References.ExtractSecrets | action_extractor.py:165-190 | `extract_secrets` returns the distinct secrets of the three sources, each once |
| References.BuildReference | action_extractor.py:124-162 | the record built for a site is the reference record of that site |
| References.ReferenceFields | action_extractor.py:124-162 | the record keeps the reference string and the site, splits at the first `@`, is pinned exactly for a 40-char lower-hex version, has secrets exactly when some were found (no duplicates), is third-party exactly outside `actions/` and `github/`, and carries `with` or `{}` |
| Extractor.UsesOfSpec | action_extractor.py:81-82 | `uses` is found exactly on a mapping whose `uses` value is a string, and that string is returned; no `uses` exactly when `"uses" in node` is false; Python raises on a node `in` cannot search, on a string or list that contains "uses", and on a non-string `uses` value |
| Extractor.SiteReferences | action_extractor.py:83 | one record per site |
| Extractor.ActionNames | action_extractor.py:136-137 | one name per record |
| Extractor.NameSetSpec | action_extractor.py:136 | the unique-name set holds exactly the names of the records |
| Extractor.SiteReferencesAppend | action_extractor.py:79-91 | the records of two runs of sites are the records of the first, then of the second |
| Extractor.JobsScanStops | action_extractor.py:79-94 | after a job raises, no later job of the workflow contributes |
| Extractor.StepsScanStops | action_extractor.py:87-94 | after a step raises, no later step of the workflow contributes |
| Extractor.DocumentWithoutJobsYieldsNothing | action_extractor.py:72-78 | an unparsable, empty or null document, or one without `jobs`, yields no references |
| Extractor.ExpectedStepSitesSnoc | action_extractor.py:87-91 | adding a step adds exactly that step's site, labelled by its position |
| Extractor.WellFormedStepScan | action_extractor.py:88-91 | a well-formed step yields its one site (or none without `uses`) and never raises |
| Extractor.WellFormedStepsScan | action_extractor.py:87-91 | well-formed steps never raise and yield one site per step with `uses`, in list order |
| Extractor.WellFormedJobSites | action_extractor.py:79-91 | a well-formed job yields its "job-level" site first, then one site per step with `uses`, named by `name` or "step-<index+1>" |
| Extractor.RecordAllAppend | action_extractor.py:135-142 | recording two runs of records one after the other is recording their concatenation |
| Extractor.RecordAllSpec | action_extractor.py:135-142 | after recording, the total is the number of records, pinned and unpinned count the pinned and the others, the usage tally is `Counter` of the names, and the unique set is the set of names |
| Extractor.Inventory.constructor | action_extractor.py:26-38 | all counters start at zero, the inventory empty |
| Extractor.Inventory.CountersMatchInventory | action_extractor.py:135-142 | in a consistent inventory `total_actions == len(actions_data)`, `pinned + unpinned == total`, each usage count is the number of records of that name (names each once, first-seen order), and the unique set holds exactly the tallied names |
| Extractor.Inventory.Append | action_extractor.py:135-142 | total by one, exactly one of pinned/unpinned by one, that name's usage by one, the name into the unique set, the record appended; the counters stay consistent |
| Extractor.Inventory.ProcessAction | action_extractor.py:124-163 | exactly the site's reference record is appended and the counters record it |
| Extractor.Inventory.ProcessUses | action_extractor.py:81-83 | a `uses` lookup appends at most the one site's record, or reports that Python raised |
| Extractor.Inventory.ProcessSteps | action_extractor.py:86-87 | the `steps` lookup appends the records of the steps' walk, or reports that it raised |
| Extractor.Inventory.ProcessStepList | action_extractor.py:87-91 | the step loop appends the records of the steps in order, stopping at the first step that raises |
| Extractor.Inventory.ProcessJob | action_extractor.py:79-91 | one job appends its job-level record, then its steps' records |
| Extractor.Inventory.ProcessWorkflow | action_extractor.py:66-94 | one workflow appends the records of its walk; a document that cannot be walked appends nothing |
| Extractor.Inventory.ProcessJobs | action_extractor.py:79-91 | the job loop appends the jobs' records in order, stopping at the first job that raises |
| Extractor.Inventory.ProcessRepository | action_extractor.py:47-65 | a repository is counted only with a non-empty workflow list; `total_workflows` grows by the list length, parsable or not; then its records are appended |
| Extractor.Inventory.ProcessWorkflows | action_extractor.py:65-96 | the workflow loop appends each workflow's records in order |
| Extractor.Inventory.ProcessRepositories | action_extractor.py:44-96 | the repository loop appends the records of every repository in order; `total_workflows` is the workflows of all listed repositories, and `repos_with_workflows` grows by the number of repositories with a non-empty list |
| Extractor.ExtractActions | action_extractor.py:19-102 | the inventory is the records of the whole corpus in walk order; the repository, workflow, pinned and unpinned counters are what the corpus implies; `top_actions` is the top 50 of the usage tally |
| Extractor.TopActionsSpec | action_extractor.py:102 | `top_actions`: min(50, distinct names) pairs in non-increasing count order, each count the number of records of that name; no name left out has a higher count than one kept; among equal counts those kept are the first seen |
| Ranking.Count | report_generator.py:238 | `sum(1 for a in s if p(a))` is at most `len(s)` |
| Ranking.Filter | report_generator.py:256 | the comprehension keeps `Count` elements, all satisfying the condition |
| Ranking.FilterMembers | report_generator.py:194-200 | the comprehension keeps exactly the elements that satisfy the condition |
| Ranking.FilterNonEmpty | report_generator.py:183-185 | something is kept exactly when `any` holds |
| Ranking.FilterNoDuplicates | report_generator.py:203 | filtering a duplicate-free table has no duplicates |
| Ranking.CountWithin | report_generator.py:256-260 | counting a condition among the production records counts the records with both, and is at most the number of production records |
| Ranking.CountComplement | report_generator.py:238-239 | the pinned and the unpinned together are all records |
| Ranking.CountPartition3 | report_generator.py:246-248 | three exhaustive, exclusive classes add up to all records |
| Ranking.Dedup | action_extractor.py:190 | de-duplication is no longer than its input |
| Ranking.DedupSpec | action_extractor.py:190 | de-duplication has no duplicates and keeps exactly the elements of its input |
| Ranking.DistinctCard | report_generator.py:237 | a duplicate-free list has as many elements as its set |
| Ranking.BumpNames | action_extractor.py:137 | `counter[name] += 1` adds the name at the end exactly when it is new |
| Ranking.BumpCounts | action_extractor.py:137 | `counter[name] += 1` raises that name's count by one and no other |
| Ranking.TalliedNames | report_generator.py:251 | `Counter(names)` lists each distinct name once, in first-seen order |
| Ranking.TalliedSpec | report_generator.py:251 | each `Counter` entry counts the occurrences of its name |
| Ranking.InsertBound | action_extractor.py:102 | inserting keeps every key under a common bound |
| Ranking.InsertSpec | action_extractor.py:102 | insertion into a ranking keeps it non-increasing and adds exactly the element |
| Ranking.InsertTies | action_extractor.py:102 | an inserted element goes before the elements already there with the same key, which keep their order |
| Ranking.Take | report_generator.py:279 | `[:n]` is the prefix of `min(n, len(s))` elements |
| Ranking.SortDescSpec | report_generator.py:275-279 | `sorted(..., reverse=True)` is non-increasing and a permutation |
| Ranking.SortDescStable | report_generator.py:275-279 | elements with equal keys keep their input order |
| Ranking.TieClassAppend | report_generator.py:275-279 | the elements with one key in `a + b` are those of `a`, then those of `b` |
| Ranking.PrefixOfRanking | report_generator.py:279 | a prefix of a ranking is a ranking, drawn from the input |
| Ranking.TopN | report_generator.py:263 | the top `n`: `min(n, len(s))` elements, non-increasing, a sub-multiset of the input |
| Ranking.TopNKeepsLargest | report_generator.py:263 | no element left out of the top `n` has a larger key than one kept |
| Ranking.TopNTies | report_generator.py:263 | among elements with equal keys, those kept in the top `n` are the first in input order |
| Ranking.TopNSpec | report_generator.py:263 | the top `n` keeps `min(n, len(s))` elements in non-increasing order; no element left out has a larger key than one kept; among equal keys those kept are the first in input order |
| Classifier.ScoreRange | report_generator.py:69-96 | the score is the sum of 30, 25, 15, 20 and 10 for the signals present, in [0, 100], and the cap never binds; it is 100 exactly when all five are present |
| Classifier.ScoreMonotone | report_generator.py:69-96 | switching signals on never lowers the score |
| Classifier.ScoreIgnoresJobName | report_generator.py:91-94 | the job name plays no part in the score |
| Classifier.FirstMatch | report_generator.py:81-84 | the loop with `break` finds a hit exactly when some table pattern occurs in one of the two texts |
| Classifier.CalculateRiskScore | report_generator.py:69-96 | `calculate_risk_score` returns the capped sum of the signals present |
| Classifier.TierBands | report_generator.py:216-221 | High exactly from 70, Medium exactly in [40, 70), Low exactly below 40; a higher score never gets a lower tier |
| Classifier.TierBoundaries | report_generator.py:216-221 | 70 is High, 69 and 40 are Medium, 39 is Low |
| Classifier.Reasons | report_generator.py:108-111 | at most one reason per table entry |
| Classifier.ReasonsSpec | report_generator.py:98-165 | a reason is listed exactly when a table entry found in the name or the rendered `with` gives it; the list is non-empty exactly when some entry matches |
| Classifier.Detect | report_generator.py:98-165 | each detector returns true exactly when its reasons list is non-empty; the list is the table-ordered `"<reason> (<pattern>)"` of the matching entries |
| Classifier.VersionPatternSimplifies | report_generator.py:167-178 | `v[0-9]+.*` under IGNORECASE matches exactly when a `v` or `V` is followed by a digit |
| Classifier.VersionedNameIsDeprecated | report_generator.py:167-178 | `actions/checkout-v2` is flagged as deprecated |
| Classifier.DeprecatedSpec | report_generator.py:167-178 | a name is flagged as deprecated exactly when it contains `deprecated` or `legacy`, or a `v` followed by a digit, case-insensitively |
| Classifier.ClassifyOne | report_generator.py:211-227 | one record gets its score, tier, the three flags, the non-empty reasons lists, and the deprecation flag |
| Classifier.ProductionTableDistinct | report_generator.py:40-51 | the production indicator table has no duplicates |
| Classifier.ProductionTagSpec | report_generator.py:180-206 | `production_workflow` holds exactly when some indicator was found; the indicators are exactly the table entries found in the file, the path or a non-empty job name, each once; the extracted fields are unchanged |
| Classifier.AnyIndicator | report_generator.py:183-190 | each `any` finds an indicator in the texts exactly when one occurs |
| Classifier.IndicatorSearches | report_generator.py:183-200 | the two `any` searches succeed exactly when the collecting loop finds something |
| Classifier.CollectIndicators | report_generator.py:194-200 | the loop collects the matching indicators in table order |
| Classifier.TagProduction | report_generator.py:181-206 | one record is tagged as the production pass defines it |
| Classifier.IdentifyProductionWorkflows | report_generator.py:180-208 | every record of the array is tagged in place, and no other changes |
| Classifier.ClassifyActions | report_generator.py:210-232 | every record of the array is classified in place, then tagged |
| Classifier.ClassifySpec | report_generator.py:210-232 | classification keeps the extracted fields; score, tier, the flags, deprecation and production are what those fields determine; a reasons key is set only when some pattern matched and otherwise keeps its earlier value |
| Classifier.ClassifyIdempotent | report_generator.py:210-232 | classifying twice gives the same record as classifying once |
| Classifier.DockerBuildPushScores100 | report_generator.py:69-96 | an unpinned third-party `docker/build-push-action` with a secret in `deploy.yml` scores 100 and is High |
| Classifier.DockerReferenceSplits | action_extractor.py:127-129 | `docker/build-push-action@v5` splits into the name `docker/build-push-action` and the version `v5` |
| Classifier.DockerStepSecrets | action_extractor.py:165-190 | the example step with password `${{ secrets.DOCKER_PW }}` requires exactly `["DOCKER_PW"]` |
| Classifier.DockerStepEndToEnd | action_extractor.py:124-162 | the record built from that step in `deploy.yml` is unpinned, third-party, needs exactly `DOCKER_PW`, scores 100 and is High |
| Classifier.JobNameTagsWithoutBonus | report_generator.py:91-94 | a job named `deploy` tags the record as production while the score's production signal stays off |
| Statistics.AddScoreNames | report_generator.py:268 | `repo_risk[repo].append(score)` adds the repository at the end exactly when it is new |
| Statistics.AddScoreLists | report_generator.py:268 | the append extends the repository's own list and no other |
| Statistics.ReposSnoc | report_generator.py:267-268 | the repositories of one more record end with its repository |
| Statistics.ScoresForNonEmpty | report_generator.py:266-268 | a repository has scores exactly when some record belongs to it |
| Statistics.ScoresForBound | report_generator.py:266-268 | a repository's scores are bounded by any bound on all scores |
| Statistics.GroupedSpec | report_generator.py:266-268 | the groups list each repository once, in first-seen order, each with its records' scores in record order |
| Statistics.GroupsNonEmpty | report_generator.py:270-272 | no group is empty, so every mean is well defined |
| Statistics.GroupScores | report_generator.py:266-268 | the loop builds exactly these groups |
| Statistics.SumBound | report_generator.py:271 | a sum of scores of at most `b` is at most `b` times the count |
| Statistics.MeanBound | report_generator.py:271 | a mean of scores in [0, b] is in [0, b] |
| Statistics.GenerateStatistics | report_generator.py:234-281 | `generate_statistics` returns the statistics of its input |
| Statistics.CountStatistics | report_generator.py:236-260 | pinned + unpinned = total; high + medium + low = total; each production sub-count counts the production records of its kind and is at most the production count |
| Statistics.DistinctCount | report_generator.py:237 | the number of distinct elements is the length of the de-duplication |
| Statistics.DistinctStatistics | report_generator.py:237-251 | `unique_actions` is the number of tally entries and at most the total; `repositories` is the number of per-repository means; each tally entry is the positive number of records of its name |
| Statistics.RepositoryRiskSpec | report_generator.py:266-272 | `repository_risk` lists each repository once, first-seen order, with the exact mean of its records' scores; with scores of at most 100 every mean is in [0, 100] |
| Statistics.RankingStatistics | report_generator.py:263-279 | `top_actions` holds the 20 most used tally entries and `high_risk_repositories` the 10 highest means (all when fewer), non-increasing; nothing left out ranks above something kept; among equal keys those kept come first in input order |
| Statistics.ClassifiedRecords | report_generator.py:210-232 | every classified record has a score of at most 100 and a tier |
| Statistics.ClassifyAndSummarize | report_generator.py:1065-1076 | the pipeline classifies every record in place, then returns the statistics of the classified records |

## Left out

- File and network I/O: directory listing, `json.load`/`json.dump`, the CSV
  writer, printing, and the collection scripts (`workflow_collector.py`,
  `repos.py`). The corpus arrives as a `seq<RepoDir>` of already-loaded
  workflow lists, and the inventory and statistics are returned values.
- `yaml.safe_load` is not part of this model. A document arrives parsed
  (`Document`), or as `Unparsable` when the loader raises. YAML floats,
  timestamps and non-string mapping keys are not distinguished.
- The JSON round trip between the two scripts: the classifier starts from
  reference records as the extractor built them.
- A repository whose workflows.json lacks `name` raises at the repository
  level (action_extractor.py:55). A `RepoDir` always has a name. A falsy
  `workflows` is skipped (58-59), as modelled. A truthy `workflows` that is not
  a list still bumps `total_repositories` and `repos_with_workflows` (61-62)
  and then fails at `len` or inside the loop (63-94). This is not modelled:
  a `RepoDir` always carries a list of workflows.
- The Python regex engine. Case-insensitive matching is ASCII-only. Python's
  Unicode case folding (e.g. the Kelvin sign matching `k`) is not modelled.
- `str(action["with_params"])` is Python's `repr`. It is a parameter
  `repr: Value -> string` of the classifier.
- Classifier.ProductionTagged: `list(set(matched_patterns))` has an arbitrary
  order in Python. The model keeps table order and states only
  order-independent facts: the members, and no duplicates. The same holds
  for `list(set(required_secrets))` in References.RequiredSecrets
  (first-occurrence order).
- Statistics.Mean: Python's float division is modelled as exact real
  division, so rounding is not modelled.
- Statistics.Statistics requires every record to be classified: the source
  reads `risk_score` and `risk_level` without a default and would raise
  KeyError otherwise.
- The report templating (`generate_html_report`,
  `generate_markdown_report`), timestamps, percentage formatting and the
  divisions by `total_actions` there and in `print_summary`.
- References.SectionSecrets, References.ScanSection, References.SectionSecretsSpec: a `with` or `env` entry that is present but not
  a mapping (an empty `with:` loads as null) is read as naming no secrets, and
  the record is appended. In Python, `.items()` raises there, inside
  `process_action`, after the counters were bumped and before the record is
  appended, and the rest of the workflow is skipped. Exceptions partway
  through `process_action` are not modelled.
- References.StringItems, References.StringItemsSpec, References.DeclaredSecretsShapes:
  a `secrets` list contributes only its string elements. Python would add
  the other elements as well.
- References.MakeReference: the record's `isPinned` is the intended test
  `IsPinned`, not the regex as written at action_extractor.py:132, which also
  accepts a pin followed by one final newline (a quoted `"\n"` or a block
  scalar in `uses` produces one). For such a version Python counts the action
  as pinned and adds no +30; the model counts it as unpinned and adds +30.
  References.PinTestsDifferOnlyOnNewline proves that this is the only input
  on which the two tests differ.
- References.BuildReference, References.ReferenceFields: they carry the same
  corrected pin test as References.MakeReference.
- Extractor.Inventory.ProcessAction, Extractor.ExtractActions: the pinned and unpinned counters follow the
  corrected pin test; they differ from the code only for the trailing-newline
  versions named under References.MakeReference.

## Findings

| source | as written | input that shows it | evidently intended | confidence | as-written member | corrected member |
|---|---|---|---|---|---|---|
| action_extractor.py:132 | `re.match(r'^[0-9a-f]{40}$', version)`: `$` also matches before a final newline | the version `a81bbbf8298c0fa03ea29cdc473d45769f953675` followed by `\n` counts as pinned | exactly forty lower-case hex characters and nothing else | not executed | References.TrailingNewlineCountsAsPinned | References.IsPinned (proved by References.PinnedExample and References.UnpinnedExamples) |
