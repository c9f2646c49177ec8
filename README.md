# Echo-ATTACK threat-intelligence dashboards, modelled in Dafny

Echo-ATTACK presents the MITRE ATT&CK threat groups (APT groups) and what
they use: techniques and sub-techniques, software and campaigns. It has two
parts.

- **Ingestion scripts.** They read STIX bundles and write one JSON record per group.
- **Dashboards.** Two Next.js apps and two Streamlit apps read those records: overview
  metrics, a TTP matrix, search, group pages. A Python cache service reads them too,
  keeping them in memory and behind a search index.

This project models the logic of those parts as Dafny datatypes, functions,
methods and classes, and proves what each operation promises about its results.

Every dashboard visits the groups in the same order: each group in map order,
then each technique row, each row followed by its sub-techniques. The model writes
that visit once, as the event sequence `Entities.Walk`. Each aggregation is
specified as a fold over those events. The loops that compute it are
methods proved equal to that fold.

Some operations exist twice in the source: in the TypeScript dashboards and in the
Python dashboards, or in two copies of one file. Each is modelled once, and
a `Dialect` parameter selects between the TypeScript and Python behaviour where
they differ. The two copies of `groups.py` (`get_mitre_data/groups.py` and `echo-attack-dashboard/get_mitre_data/groups.py`) are identical line for line. They share one model, and the table below cites the first.

| module | file | models |
|---|---|---|
| `Wrappers` | wrappers.dfy | `Option` and `Result` |
| `Collections` | collections.dfy | insertion-ordered maps (JavaScript objects, Python dicts), order-preserving filters, first-occurrence de-duplication, the stable sort |
| `Strings` | strings.dfy | lower-casing, substring search, trimming, `split()`, `split(sep)`, `slice` |
| `Numbers` | numbers.dfy | `Math.round(part / whole * 100)` in exact arithmetic |
| `Entities` | entities.dfy | groups, technique rows, sub-techniques, software, campaigns, and the visit order `Walk` |
| `DataLoader` | dataloader.dfy | `MITREDataLoader`: loading and normalising group files, the overview metrics (both dialects) |
| `UsageMatrix` | usagematrix.dfy | `createTTPMatrix` and `create_ttp_matrix` |
| `TechStats` | techstats.dfy | `getTechniqueStats` and both `get_technique_stats` |
| `Overview` | overview.dfy | the overview dashboard: top ten techniques, chart labels, coverage chart and card |
| `Tactics` | tactics.dfy | the tactic tables and the id-to-tactic classifiers |
| `TtpIndex` | ttpindex.dfy | the TTP-matrix dashboard: technique index, filter, tactic buckets, tactic statistics |
| `MatrixViews` | matrixviews.dfy | the Streamlit matrix page: coverage statistics, filter, heatmap, summary, maturity level, technique table |
| `Search` | search.dfy | the two Next.js search dashboards and the Streamlit searches |
| `Links` | links.dfy | `parseMitreLinks`, the URL builders, the `MitreLink` URL choice; the link pattern's matcher takes its fixed URL prefix as a parameter, which `Render` sets to `https://attack.mitre.org/` |
| `GroupsView` | groupsview.dfy | the APT-groups page: filtered list, statistics of the selected group, technique table |
| `CacheFilter` | cachefilter.dfy | `_filter_used_techniques` and `_calculate_relevance` |
| `CacheLookup` | cachelookup.dfy | `get_all_techniques`, `get_apt_groups_by_technique`, `get_apt_groups_by_software` |
| `CacheSearch` | cachesearch.dfy | the search-index terms and rows, and the ranking of search results |
| `CacheService` | cacheservice.dfy | the `MITRECache` object: loading, memoisation, lookups |
| `Stix` | stix.dfy | `buildhelpers.py`: ATT&CK ids, reference lists, alias data, deprecation filter, technique-id tests and splits |
| `StixHelpers` | stixdedup.dfy | `stixhelpers.py`: `add_replace_or_ignore`, the de-duplications, the sorted lists |
| `TechniqueUsed` | techused.dfy | `technique_used_helper` and its helpers |
| `GroupsBuild` | groupsbuild.dfy | `groups.py`: group records with their technique, campaign and software tables |

## Model

| member | source | states |
|---|---|---|
| Numbers.RoundPercent | echo-attack-dashboard/src/components/ttp-matrix-dashboard.tsx:223 | for a positive whole, the integer nearest to 100·part/whole with a half rounded up; 0 for an empty whole or part, at most 100 for a part of the whole, and 100 for the whole |
| Numbers.NearestPercentUnique | echo-attack-dashboard/src/components/ttp-matrix-dashboard.tsx:223 | at most one integer is nearest to 100·part/whole, so the rounded percentage is determined |
| Strings.Lower | mitre_cache.py:433 | lowercasing keeps the length and lowercases each letter |
| Strings.TrimEmptyIff | echo-attack-dashboard/src/components/search-dashboard.tsx:82 | a query trims to nothing exactly when it is all white space |
| Strings.Words | mitre_cache.py:373 | split() yields non-empty words without white space |
| Strings.WordsBlank | mitre_cache.py:373 | split() gives no words exactly when the string is all white space |
| Strings.WordsFlat | mitre_cache.py:373 | the words of split(), joined, are the string with its white space removed, in order |
| Strings.WordsUnwords | mitre_cache.py:373 | split() of words joined by single spaces gives those words back, so words are maximal runs separated by white space |
| DataLoader.Normalise | echo-attack-dashboard/src/lib/data-loader.ts:25-27 | the stored group has both arrays; a missing `software_data`/`campaign_data` becomes `[]`, every other field and every present array is kept |
| DataLoader.NormaliseFile | echo-attack-dashboard/src/lib/data-loader.ts:25-27 | the two in-place defaults give exactly the normalised group |
| DataLoader.ParsedPrefix | echo-attack-dashboard/src/lib/data-loader.ts:20-23 | the groups stored before a failure are the files read so far, in listing order, and the next file is the one that failed |
| DataLoader.StoreAllWellKeyed | echo-attack-dashboard/src/lib/data-loader.ts:20-29 | every stored group sits under its own ATT&CK id with both arrays present, and every parsed group's id is a key |
| DataLoader.LaterFileWins | echo-attack-dashboard/src/lib/data-loader.ts:29 | a later file with the same ATT&CK id replaces the earlier one |
| DataLoader.MitreDataLoader.constructor | echo-attack-dashboard/src/lib/data-loader.ts:5-7 | a fresh loader holds no groups and is not loaded |
| DataLoader.MitreDataLoader.LoadAptGroups | echo-attack-dashboard/src/lib/data-loader.ts:9-38 | once loaded the cached map is returned unchanged; otherwise the files are stored in order up to the first failure, the loader becomes loaded only when none failed, and a failure returns an empty map |
| DataLoader.CalculateOverviewMetrics | echo-attack-dashboard/src/lib/data-loader.ts:40-88 | the nested loops compute the overview metrics of the group map |
| DataLoader.TallyGroup | echo-attack-dashboard/src/lib/data-loader.ts:51-76 | one group's step adds its totals, then each of its rows |
| DataLoader.TallyTechnique | echo-attack-dashboard/src/lib/data-loader.ts:56-75 | one row's step records its id, its used flag and tactic, then counts its used sub-techniques |
| DataLoader.OverviewBounds | streamlit/streamlit_dashboard.py:232-275 | used main techniques and distinct ids never exceed the rows, tactics never exceed the used main techniques, and there is one group per key |
| DataLoader.TallyIds | echo-attack-dashboard/src/lib/data-loader.ts:57-60 | an id is counted among the unique techniques if and only if it is the non-empty id of some row |
| DataLoader.TallyTactics | echo-attack-dashboard/src/lib/data-loader.ts:62-67 | a tactic is covered if and only if it is the first two characters of a used, undotted, non-empty row id |
| DataLoader.WalkCounts | streamlit/streamlit_dashboard.py:245-264 | the row and software totals and the two used counters are the per-group sums |
| DataLoader.InlineTotalsAgree | streamlit_dashboard.py:124-138 | the totals the single-file dashboard computes inline equal the overview metrics |
| DataLoader.OverviewEmpty | echo-attack-dashboard/src/lib/data-loader.ts:40-88 | an empty map gives all eight metrics zero |
| DataLoader.OverviewExample | echo-attack-dashboard/src/lib/data-loader.ts:40-88 | two groups sharing T1055, one using it, give one distinct technique, one used main technique and one tactic |
| UsageMatrix.CreateTtpMatrix | echo-attack-dashboard/src/lib/data-loader.ts:90-124 | the loops compute the usage matrix of the group map, in either dialect |
| UsageMatrix.MatrixGroup | echo-attack-dashboard/src/lib/data-loader.ts:98-120 | one group's step resets its name's usage record, then records each of its rows |
| UsageMatrix.MatrixTechnique | echo-attack-dashboard/src/lib/data-loader.ts:101-119 | a row with an empty id is skipped with its sub-techniques; otherwise the row, then its sub-techniques |
| UsageMatrix.MatrixRow | echo-attack-dashboard/src/lib/data-loader.ts:102-107 | a row with an id records its name and the group's flag under that id |
| UsageMatrix.MatrixSub | streamlit/streamlit_dashboard.py:296-303 | a sub-technique with an id records its name and flag under `techId.subId`; one without an id is skipped |
| UsageMatrix.SubsWithoutParentId | echo-attack-dashboard/src/lib/data-loader.ts:105-119 | sub-techniques under a row without an id change nothing |
| UsageMatrix.UsageKeysAreTechniques | echo-attack-dashboard/src/lib/data-loader.ts:105-117 | every key of every group's usage record is a key of `allTechniques` |
| UsageMatrix.NamesAreLastWritten | streamlit/streamlit_dashboard.py:288-302 | the name under a key is that of the last row or sub-technique recorded under it, and no other key has a name |
| UsageMatrix.TechniqueKeys | echo-attack-dashboard/src/lib/data-loader.ts:105-117 | the keys are exactly the non-empty row ids and the `techId.subId` keys with both ids non-empty |
| UsageMatrix.UsageNamesFrom | echo-attack-dashboard/src/lib/data-loader.ts:99 | a group name is a key of `aptUsage` exactly when it was there before or some visited group has that name |
| UsageMatrix.UsageKeysAreGroupNames | streamlit/streamlit_dashboard.py:287-288 | `aptUsage` has one entry per distinct group name |
| UsageMatrix.UsageDependsOnOwnRecord | echo-attack-dashboard/src/lib/data-loader.ts:99-117 | a group's steps change its name's record from that record alone |
| UsageMatrix.LastGroupOfNameWins | echo-attack-dashboard/src/lib/data-loader.ts:99 | a later group with the same name replaces the earlier group's usage record |
| UsageMatrix.PythonSubNames | streamlit/streamlit_dashboard.py:301 | the Python matrix names a sub-technique `"{tech_name}: {sub_name}"` |
| TechStats.GetTechniqueStats | echo-attack-dashboard/src/lib/data-loader.ts:126-161 | the loops compute the counts, names and (Python) group sets of the group map |
| TechStats.StatsGroup | streamlit/streamlit_dashboard.py:362-382 | one group's step visits each of its rows in order |
| TechStats.StatsTechnique | echo-attack-dashboard/src/lib/data-loader.ts:134-157 | a row with an empty id is skipped with its sub-techniques; otherwise the row, then its sub-techniques |
| TechStats.StatsRow | streamlit/streamlit_dashboard.py:367-373 | a row with an id records its name and, when used, adds one to its count and its group to its set |
| TechStats.StatsSub | streamlit/streamlit_dashboard.py:376-382 | a sub-technique with an id and the used flag is counted under `techId.subId`; Python names it only then |
| TechStats.StatsSubsWithoutParentId | echo-attack-dashboard/src/lib/data-loader.ts:137-156 | sub-techniques under a row without an id change nothing |
| TechStats.LastNamed | echo-attack-dashboard/src/lib/data-loader.ts:138-149 | the chosen event is a named entry under the key, and there is none exactly when no such entry exists |
| TechStats.CountsAreUseCounts | echo-attack-dashboard/src/lib/data-loader.ts:140-153 | the count of a key is the number of used entries under it, and a key nothing uses has no count |
| TechStats.StatsStepCount | echo-attack-dashboard/src/lib/data-loader.ts:141 | a used entry adds one to its own key's count and to no other |
| TechStats.AptIsUsingGroups | streamlit/streamlit_dashboard.py:370-382 | Python's group set of a key is the set of names of the groups that use it |
| TechStats.StatsStepGroupSets | streamlit/streamlit_dashboard.py:372 | a used entry adds its group's name to its own key's set and to no other |
| TechStats.UsingGroupsBound | streamlit_dashboard.py:89-99 | a key's using groups are never more than its used entries |
| TechStats.AptBoundedByCount | streamlit_dashboard.py:72-101 | a key has a group set exactly when it has a count, and the set is never larger than the count |
| TechStats.NamesAreLastNamed | echo-attack-dashboard/src/lib/data-loader.ts:138-149 | the name of a key is that of the last entry written under it |
| TechStats.CountedKeysAreNamed | streamlit/streamlit_dashboard.py:367-381 | every counted key has a name and a count of at least one |
| TechStats.DialectsCountAlike | streamlit/streamlit_dashboard.py:356-384 | the JavaScript and Python versions produce the same counts |
| TechStats.JsNamesAreMatrixNames | echo-attack-dashboard/src/lib/data-loader.ts:133-158 | the JavaScript name map equals `createTTPMatrix`'s `allTechniques` |
| TechStats.JsHasNoGroupSets | echo-attack-dashboard/src/lib/data-loader.ts:126-161 | the JavaScript version builds no group-set map |
| TechStats.PythonNamesUsedSubsOnly | streamlit/streamlit_dashboard.py:376-379 | a key held only by unused sub-techniques gets no Python name |
| Overview.UsedRowList | echo-attack-dashboard/src/components/overview-dashboard.tsx:95 | every row kept by the `flatMap` is used |
| Overview.UsedRowsMembers | echo-attack-dashboard/src/components/overview-dashboard.tsx:94-95 | a row is kept exactly when it is used and belongs to one of the groups |
| Overview.TopFromKeys | echo-attack-dashboard/src/components/overview-dashboard.tsx:96-102 | after the reduce, a key is present exactly when some row has that id |
| Overview.TopFromCount | echo-attack-dashboard/src/components/overview-dashboard.tsx:99 | the count under a key is the number of rows with that id |
| Overview.LastWithId | echo-attack-dashboard/src/components/overview-dashboard.tsx:97-98 | the index found holds a row with the id and no later row has it, or there is none (-1) |
| Overview.TopFromName | echo-attack-dashboard/src/components/overview-dashboard.tsx:97-98 | the name under a key is that of the last row with that id |
| Overview.TopStepOther | echo-attack-dashboard/src/components/overview-dashboard.tsx:97-100 | a row with another id leaves an entry as it was |
| Overview.TopCounts | echo-attack-dashboard/src/components/overview-dashboard.tsx:94-102 | an id is ranked exactly when some group has a used row with it, and its count is the number of such rows |
| Overview.ReduceTopTechniques | echo-attack-dashboard/src/components/overview-dashboard.tsx:94-102 | the `flatMap` then the `reduce` give the reduced record of the groups |
| Overview.CollectUsedRows | echo-attack-dashboard/src/components/overview-dashboard.tsx:95 | the loop collects the used rows of each group in order |
| Overview.CountTopTechniques | echo-attack-dashboard/src/components/overview-dashboard.tsx:96-102 | the loop over the rows computes the reduced record |
| Overview.CountOne | echo-attack-dashboard/src/components/overview-dashboard.tsx:97-101 | one callback sets its id's name and adds one to its count |
| Overview.UsedOfGroup | echo-attack-dashboard/src/components/overview-dashboard.tsx:95 | the loop keeps exactly the used rows, in order |
| Overview.TopTenProperties | echo-attack-dashboard/src/components/overview-dashboard.tsx:104-106 | the ranking has ten entries, or every id when there are fewer, in non-increasing count, each an entry of the record, no id twice; an id left out is used no more than the tenth ranked |
| Overview.TopTenMaximal | echo-attack-dashboard/src/components/overview-dashboard.tsx:104-106 | an id that is not ranked leaves ten ranked entries, the tenth used at least as often |
| Overview.SortedDistinct | echo-attack-dashboard/src/components/overview-dashboard.tsx:104-105 | sorting the record's distinct entries leaves them distinct |
| Overview.Label | echo-attack-dashboard/src/components/overview-dashboard.tsx:159 | a label is the id, ": ", the first twenty characters of the name (or all of a shorter one) and "..." |
| Overview.ChartLabels | echo-attack-dashboard/src/components/overview-dashboard.tsx:159 | one label per ranked entry, in ranking order |
| Overview.ChartData | echo-attack-dashboard/src/components/overview-dashboard.tsx:164 | one bar per ranked entry, holding its count |
| Overview.ChartDataNonIncreasing | echo-attack-dashboard/src/components/overview-dashboard.tsx:104-106 | the bars never increase from left to right |
| Overview.CoverageSlices | echo-attack-dashboard/src/components/overview-dashboard.tsx:198 | the two slices are the used main techniques and the rest, adding up to the distinct ids |
| Overview.CoveragePercent | echo-attack-dashboard/src/components/overview-dashboard.tsx:330 | the card is the integer nearest to 100·used/unique, a half rounded up, and at most 100 whenever the used main techniques do not exceed the distinct ids |
| Overview.CoverageOverflow | echo-attack-dashboard/src/components/overview-dashboard.tsx:198 | two groups using the same technique give an "unused" slice of -1 and a card of 200 |
| Overview.CoverageOverflowExample | echo-attack-dashboard/src/components/overview-dashboard.tsx:330 | on two sample groups the card shows 200 |
| Overview.IntendedSlices | echo-attack-dashboard/src/components/overview-dashboard.tsx:198 | the corrected slices are non-negative and add up to the distinct ids |
| Overview.IntendedPercent | echo-attack-dashboard/src/components/overview-dashboard.tsx:330 | the corrected card is the integer nearest to 100·(distinct used ids)/(distinct ids) and at most 100 |
| Overview.UsedIdsAreIds | echo-attack-dashboard/src/lib/data-loader.ts:57-66 | the used ids are among the distinct ids |
| Tactics.TacticNames | echo-attack-dashboard/src/components/ttp-matrix-dashboard.tsx:61-74 | the twelve tactic names, in display order |
| Tactics.Lookup | echo-attack-dashboard/src/components/ttp-matrix-dashboard.tsx:216 | a found value is paired with the key in the table, and nothing is found exactly when no entry has the key |
| Tactics.TacticFromTechniqueId | echo-attack-dashboard/src/components/ttp-matrix-dashboard.tsx:199-218 | the table's tactic for the id's part before the first '.', "Discovery" when the table has none; always one of the twelve tactics |
| Tactics.MappingsAreTactics | echo-attack-dashboard/src/components/ttp-matrix-dashboard.tsx:201-213 | every tactic in the classifier's table is one of the twelve |
| Tactics.TacticNamesDistinct | echo-attack-dashboard/src/components/ttp-matrix-dashboard.tsx:61-74 | the twelve tactic names are pairwise different |
| Tactics.ClassifyIgnoresSubId | echo-attack-dashboard/src/components/ttp-matrix-dashboard.tsx:216-217 | a sub-technique id is classified as its parent |
| Tactics.TacticTablesSwapTwoNames | streamlit/streamlit_dashboard.py:314-327 | the Python tactic table lists the same ids in the same order, with the names of TA0010 and TA0011 exchanged |
| Tactics.PythonTactic | streamlit/streamlit_dashboard.py:346-348 | a tactic is found exactly for an id starting with 'T' whose "TA" + next four characters is a key, and it is that key's name |
| Tactics.PythonTacticExample | streamlit/streamlit_dashboard.py:346-348 | "T0001.001" maps to Initial Access |
| TtpIndex.NewEntryTactic | echo-attack-dashboard/src/components/ttp-matrix-dashboard.tsx:95-122 | rows and their sub-techniques both take the tactic of the row's id |
| TtpIndex.AllTechniques | echo-attack-dashboard/src/components/ttp-matrix-dashboard.tsx:83-142 | the memo lists the index's entries in insertion order |
| TtpIndex.IndexGroup | echo-attack-dashboard/src/components/ttp-matrix-dashboard.tsx:86-139 | one group's step visits each row, then its sub-techniques |
| TtpIndex.IndexTechnique | echo-attack-dashboard/src/components/ttp-matrix-dashboard.tsx:87-138 | the main technique, then each of its sub-techniques |
| TtpIndex.Visit | echo-attack-dashboard/src/components/ttp-matrix-dashboard.tsx:89-111 | a new key gets a fresh entry, then the group's usage fact is recorded |
| TtpIndex.IndexValid | echo-attack-dashboard/src/components/ttp-matrix-dashboard.tsx:84 | the index stays a well-formed ordered map |
| TtpIndex.FirstIndexed | echo-attack-dashboard/src/components/ttp-matrix-dashboard.tsx:89 | the first occurrence found has the key, and there is none exactly when no event has the key |
| TtpIndex.ActiveCount | echo-attack-dashboard/src/components/ttp-matrix-dashboard.tsx:108-110 | the active groups never exceed the facts |
| TtpIndex.StepEntry | echo-attack-dashboard/src/components/ttp-matrix-dashboard.tsx:89-111 | an occurrence of the key creates its entry if new and records its fact; other keys are untouched |
| TtpIndex.EntryOfKey | echo-attack-dashboard/src/components/ttp-matrix-dashboard.tsx:83-142 | an entry keeps its first occurrence's fields and the facts of all occurrences, with the two counters they give; no entry for an absent key |
| TtpIndex.FirstOccurrence | echo-attack-dashboard/src/components/ttp-matrix-dashboard.tsx:89-98 | the first occurrence of a key creates its entry with one fact |
| TtpIndex.EntryCounters | echo-attack-dashboard/src/components/ttp-matrix-dashboard.tsx:102-110 | `totalGroups` is the number of facts, `activeGroups` the used ones, never more than `totalGroups` |
| TtpIndex.StepKeys | echo-attack-dashboard/src/components/ttp-matrix-dashboard.tsx:89-91 | a new key goes last; an existing one keeps its place |
| TtpIndex.KeysInFirstSeenOrder | echo-attack-dashboard/src/components/ttp-matrix-dashboard.tsx:141 | entries come out in first-seen order, one per visited key |
| TtpIndex.EmptyIdsKept | echo-attack-dashboard/src/components/ttp-matrix-dashboard.tsx:89-98 | a row with an empty id still gets an entry, keyed "" |
| TtpIndex.FilteredTechniques | echo-attack-dashboard/src/components/ttp-matrix-dashboard.tsx:145-156 | the filter keeps a subsequence of the index, each entry matching text, tactic and the active switch |
| TtpIndex.FilterNothing | echo-attack-dashboard/src/components/ttp-matrix-dashboard.tsx:147-153 | no text, all tactics and the switch off keep the whole index |
| TtpIndex.FilteredMembers | echo-attack-dashboard/src/components/ttp-matrix-dashboard.tsx:145-156 | an entry is kept exactly when it is in the index and matches |
| TtpIndex.TechniquesByTactic | echo-attack-dashboard/src/components/ttp-matrix-dashboard.tsx:159-171 | the loop groups the filtered entries by tactic |
| TtpIndex.BucketsAreFilters | echo-attack-dashboard/src/components/ttp-matrix-dashboard.tsx:162-168 | each bucket holds exactly the entries of its tactic, in their order |
| TtpIndex.BucketKeys | echo-attack-dashboard/src/components/ttp-matrix-dashboard.tsx:164-166 | there is a bucket exactly for each tactic present |
| TtpIndex.BucketSizesSum | echo-attack-dashboard/src/components/ttp-matrix-dashboard.tsx:176-183 | when every entry's tactic is among distinct names, the buckets together hold all entries |
| TtpIndex.TacticStats | echo-attack-dashboard/src/components/ttp-matrix-dashboard.tsx:185-196 | one card per tactic of the table, in its order |
| TtpIndex.TacticStatBounds | echo-attack-dashboard/src/components/ttp-matrix-dashboard.tsx:186-195 | a card's active count is at most its total, its coverage the integer nearest to 100·active/total, at most 100 and 0 for an empty tactic, its total the tactic's entries |
| TtpIndex.TacticTotalsCoverIndex | echo-attack-dashboard/src/components/ttp-matrix-dashboard.tsx:174-197 | the card totals add up to the number of index entries |
| TtpIndex.CardTotalIsSumAll | echo-attack-dashboard/src/components/ttp-matrix-dashboard.tsx:185-196 | the card totals add up to the entries counted tactic by tactic |
| TtpIndex.UsagePercentage | echo-attack-dashboard/src/components/ttp-matrix-dashboard.tsx:222-223 | 0 when no group lists the technique; otherwise the integer nearest to 100·active/total, a half rounded up, and at most 100 |
| MatrixViews.NoCoverage | streamlit/streamlit_dashboard.py:310-311 | the empty statistics are well-formed maps |
| MatrixViews.CreateTechniqueCoverageStats | streamlit/streamlit_dashboard.py:308-353 | the loops compute the coverage statistics of the group map |
| MatrixViews.CoverTechnique | streamlit/streamlit_dashboard.py:330-351 | one row's step: only a used row with an id is counted and filed |
| MatrixViews.CountTechnique | streamlit/streamlit_dashboard.py:334-343 | a row's entry is created if absent, then its group is appended and counted |
| MatrixViews.RecordTactic | streamlit/streamlit_dashboard.py:346-351 | the id is added to its tactic's set when "TA" + `tech_id[1:5]` names a tactic |
| MatrixViews.CountRowInv | streamlit/streamlit_dashboard.py:335-343 | counting a row keeps every count equal to its list of users and adds exactly its id |
| MatrixViews.FileTacticExact | streamlit/streamlit_dashboard.py:346-351 | after filing, each tactic set holds exactly the counted ids of that tactic |
| MatrixViews.FileTacticCovers | streamlit/streamlit_dashboard.py:346-351 | after filing, every counted id with a tactic is filed under it |
| MatrixViews.CoverageStepInv | streamlit/streamlit_dashboard.py:330-351 | one row's step keeps the statistics' invariant |
| MatrixViews.CoverageShape | streamlit/streamlit_dashboard.py:308-353 | the statistics of a group map keep the invariant: counts are list lengths, tactic sets are exact |
| MatrixViews.CoverageRowsUsers | streamlit/streamlit_dashboard.py:331-343 | a group's rows append its name once per used row of the id, and the first name stays |
| MatrixViews.CoverageGroupsUsers | streamlit/streamlit_dashboard.py:329-343 | `used_by` lists the using groups in visiting order and the name is that of the first used row |
| MatrixViews.CoverageIsUsage | streamlit/streamlit_dashboard.py:308-353 | an id has statistics exactly when some group uses a row with it; `used_by` lists those groups, `count` is its length, the name comes from the first such row |
| MatrixViews.FilterTechniques | streamlit/streamlit_dashboard.py:632-651 | nothing when no group is selected (the page stops with a warning); otherwise the entries that pass, in order, with their names |
| MatrixViews.FilterEntries | streamlit/streamlit_dashboard.py:637-651 | the loop keeps exactly the entries whose id passes, in order and with their names |
| MatrixViews.FilterStep | streamlit/streamlit_dashboard.py:650-651 | one loop step keeps the output an ordered sub-map of the input |
| MatrixViews.FilterCases | streamlit/streamlit_dashboard.py:639-648 | which ids each of the four filters keeps |
| MatrixViews.FilterAllKeepsEverything | streamlit/streamlit_dashboard.py:639 | "All Techniques" keeps the whole table |
| MatrixViews.MainAndSubSplit | streamlit/streamlit_dashboard.py:645-648 | main-only and sub-only split the table between them |
| MatrixViews.CellRow | streamlit/streamlit_dashboard.py:679-681 | one 0/1 cell per filtered technique |
| MatrixViews.Heatmap | streamlit/streamlit_dashboard.py:676-688 | one row per selected group |
| MatrixViews.HeatmapData | streamlit/streamlit_dashboard.py:669-688 | the loops build the heatmap matrix |
| MatrixViews.RowSumIsUsedCount | streamlit/streamlit_dashboard.py:816-896 | a heatmap row's sum is the group's used count of the summary table |
| MatrixViews.UsedCellsAreUsedCounts | streamlit/streamlit_dashboard.py:804-896 | the heatmap's used cells are the summary table's used counts added up |
| MatrixViews.UsedCellsBound | streamlit/streamlit_dashboard.py:803-804 | the used cells never exceed the total cells |
| MatrixViews.Percentage | streamlit/streamlit_dashboard.py:805 | 0 for an empty whole, never negative, at most 100 for a part of the whole, 100 for the whole |
| MatrixViews.UsageRateSplit | streamlit/streamlit_dashboard.py:795 | the groups using a technique and those not using it split the selection, so the usage rate is at most 100 |
| MatrixViews.MatrixCoverageBound | streamlit/streamlit_dashboard.py:803-805 | the matrix coverage is at most 100, and 0 for an empty matrix |
| MatrixViews.MaturityLevel | streamlit/streamlit_dashboard.py:923-934 | each level holds exactly on its band of thresholds 80, 60, 40 and 20, each inclusive |
| MatrixViews.MaturityMonotone | streamlit/streamlit_dashboard.py:923-934 | a higher coverage never gives a lower level |
| MatrixViews.SummaryRowOf | streamlit/streamlit_dashboard.py:895-906 | a row's used count is at most the filtered techniques, its coverage at most 100, its level that of its coverage |
| MatrixViews.SummaryTable | streamlit/streamlit_dashboard.py:885-909 | nothing for an empty filter; otherwise a permutation of one row per selected group |
| MatrixViews.SummaryTableSorted | streamlit/streamlit_dashboard.py:909 | the summary rows come in non-increasing order of techniques used |
| MatrixViews.DescriptionCell | streamlit/streamlit_dashboard.py:1134-1135 | "No description" for an empty description, otherwise its first hundred characters and "..." |
| MatrixViews.SubRows | streamlit/streamlit_dashboard.py:1139-1148 | one row per sub-technique, in order |
| MatrixViews.CreateTechniquesDataframe | streamlit/streamlit_dashboard.py:1122-1150 | each row followed by its sub-techniques, or nothing when there are none |
| MatrixViews.TableRowsCount | streamlit/streamlit_dashboard.py:1126-1150 | one row per technique and per sub-technique, so the table is missing exactly when the group has no techniques |
| MatrixViews.TableMainRows | streamlit/streamlit_dashboard.py:1129-1136 | the main rows, read alone, are the techniques in order |
| Search.Snippet | echo-attack-dashboard/src/components/search-dashboard.tsx:97-128 | at most the first 200 characters of the description, then "..." |
| Search.OptionalSnippet | echo-attack-dashboard/src/components/search-dashboard.tsx:112-148 | the fallback text is never produced; a missing description gives "undefined..." |
| Search.SubHits | echo-attack-dashboard/src/components/search-dashboard.tsx:120-134 | every sub-technique hit is a technique result of its own group |
| Search.TechniqueHits | echo-attack-dashboard/src/components/search-dashboard.tsx:105-134 | every hit of a row is a technique result of its own group |
| Search.SoftwareHits | echo-attack-dashboard/src/components/search-dashboard.tsx:140-153 | every software hit is a software result of its own group |
| Search.GroupResults | echo-attack-dashboard/src/components/search-dashboard.tsx:89-154 | a group only gives results of the selected kinds |
| Search.ResultsFor | echo-attack-dashboard/src/components/search-dashboard.tsx:81-158 | a blank query gives nothing, and only selected kinds appear |
| Search.SearchResults | mitre-nextjs-dashboard/src/components/search-dashboard.tsx:37-114 | the loops push exactly the results of the search, in map order |
| Search.SearchGroup | echo-attack-dashboard/src/components/search-dashboard.tsx:87-155 | one group's step appends its own, technique and software results |
| Search.SearchTechniques | echo-attack-dashboard/src/components/search-dashboard.tsx:104-135 | the loop over the rows appends each row's hits in order |
| Search.SearchTechnique | echo-attack-dashboard/src/components/search-dashboard.tsx:105-134 | a row's own result, then those of its sub-techniques |
| Search.SearchSoftware | echo-attack-dashboard/src/components/search-dashboard.tsx:140-153 | the loop over the software appends each matching entry |
| Search.SubHitsMembers | echo-attack-dashboard/src/components/search-dashboard.tsx:120-133 | a sub-technique result is reported exactly for a matching sub-technique |
| Search.TechniquesHitsMembers | echo-attack-dashboard/src/components/search-dashboard.tsx:104-135 | a technique hit comes exactly from a matching row or a matching sub-technique of one |
| Search.RowFound | echo-attack-dashboard/src/components/search-dashboard.tsx:105-116 | every matching row is reported with its own group's id and name and its own `technique_used` |
| Search.SubFound | echo-attack-dashboard/src/components/search-dashboard.tsx:121-132 | every matching sub-technique is reported with the composite id and its own `technique_used` |
| Search.RepeatedRowsRepeatHits | echo-attack-dashboard/src/components/search-dashboard.tsx:104-135 | nothing is de-duplicated: rows listed twice give their hits twice |
| Search.SearchFromMembers | echo-attack-dashboard/src/components/search-dashboard.tsx:87-155 | a result is a hit of one of the groups searched |
| Search.RowReported | mitre-nextjs-dashboard/src/components/search-dashboard.tsx:59-73 | with techniques selected and a non-blank query, every matching row of every group is reported |
| Search.GroupResultsWithout | echo-attack-dashboard/src/components/search-dashboard.tsx:89-139 | dropping a kind from the selection drops exactly a group's results of that kind |
| Search.ToggleType | echo-attack-dashboard/src/components/search-dashboard.tsx:160-166 | the kind is selected afterwards exactly when it was not before; other kinds are unchanged |
| Search.ToggleTwice | mitre-nextjs-dashboard/src/components/search-dashboard.tsx:116-122 | appending a kind and toggling it again restores the selection |
| Search.ToggleOffDropsKind | echo-attack-dashboard/src/components/search-dashboard.tsx:160-166 | toggling a kind off removes exactly its results and keeps the others in order |
| Search.ToggleOnKeepsOthers | mitre-nextjs-dashboard/src/components/search-dashboard.tsx:116-122 | toggling a kind on leaves the other kinds' results as they were |
| Search.GetDetailedInfo | echo-attack-dashboard/src/components/search-dashboard.tsx:43-78 | the owning group is found exactly when one exists; a technique or software is only given for its kind, the software has the result's id |
| Search.GroupResultsOwned | echo-attack-dashboard/src/components/search-dashboard.tsx:44-114 | every result of a group names that group as its owner |
| Search.ResultsHaveGroup | echo-attack-dashboard/src/components/search-dashboard.tsx:43-44 | every search result has a group to show in its detail view |
| Search.Excerpt100 | streamlit/streamlit_dashboard.py:1044-1045 | empty exactly for an empty description, at most 103 characters |
| Search.PerformSearch | streamlit/streamlit_dashboard.py:1017-1074 | the loops build exactly the Python search results, in map order |
| Search.PySearchGroup | streamlit/streamlit_dashboard.py:1022-1072 | one group's step appends its group row, technique, sub-technique and software results |
| Search.PySearchTechniques | streamlit/streamlit_dashboard.py:1035-1060 | the loop over the rows appends each row's hits in order |
| Search.PySearchTechnique | streamlit_dashboard.py:294-317 | a used matching row is reported, then its used matching sub-techniques |
| Search.PySearchSoftware | streamlit/streamlit_dashboard.py:1063-1072 | the loop over the software appends each matching entry |
| Search.PySubHitsMembers | streamlit/streamlit_dashboard.py:1049-1060 | a sub-technique result is reported exactly for a used, matching sub-technique |
| Search.PyTechniquesHitsMembers | streamlit/streamlit_dashboard.py:1035-1060 | technique and sub-technique hits come exactly from used entries whose name or id match |
| Search.PySoftwareHitsMembers | streamlit/streamlit_dashboard.py:1063-1072 | a software result is reported exactly for a matching entry |
| Search.PyGroupResultsShape | streamlit_dashboard.py:283-317 | inside one group: the group row only for a matching name or alias, rows and sub-techniques only when used, software whenever it matches |
| Search.PySoftwareAlwaysReported | streamlit/streamlit_dashboard.py:1063-1072 | software is reported regardless of usage flags |
| Search.ShowSearch | streamlit/streamlit_dashboard.py:994-996 | the search runs only for a non-empty, untrimmed query |
| Search.PySearchFromMembers | streamlit/streamlit_dashboard.py:1022 | a result belongs to one of the groups searched |
| Search.SpaceQueryDiffers | echo-attack-dashboard/src/components/search-dashboard.tsx:82 | a one-space query gives nothing in the Next.js search but reports every group whose name holds a space in the Python search |
| Links.FirstAfter | echo-attack-dashboard/src/lib/mitre-links.tsx:7 | the first `c` at or after the start, or the end of the text (the stop of a negated character class) |
| Links.FirstAfterFirst | echo-attack-dashboard/src/lib/mitre-links.tsx:7 | no `c` comes before the position found |
| Links.MatchAt | echo-attack-dashboard/src/lib/mitre-links.tsx:7 | a match at an index starts there with '[' and ends inside the text |
| Links.MatchAtSource | echo-attack-dashboard/src/lib/mitre-links.tsx:7 | the matched slice is the `[text](url)` form of the two groups matched |
| Links.MatchAtShape | echo-attack-dashboard/src/lib/mitre-links.tsx:7 | for a URL prefix without ')', a match is a well-formed link and the matched slice is its `[text](url)` form |
| Links.NextMatch | echo-attack-dashboard/src/lib/mitre-links.tsx:13 | `exec` finds a match starting at or after `lastIndex` |
| Links.NextMatchLeftmost | echo-attack-dashboard/src/lib/mitre-links.tsx:13 | no match starts between `lastIndex` and the one found |
| Links.NextMatchNone | echo-attack-dashboard/src/lib/mitre-links.tsx:13 | when `exec` finds nothing, no match starts at or after `lastIndex` |
| Links.NextMatchFinds | echo-attack-dashboard/src/lib/mitre-links.tsx:13 | `exec` finds the first match after `lastIndex` |
| Links.ParseMitreLinks | echo-attack-dashboard/src/lib/mitre-links.tsx:3-45 | the `exec` loop returns the rendering of the text |
| Links.TokenizeStep | echo-attack-dashboard/src/lib/mitre-links.tsx:13-36 | one step pushes the gap before the match, the link, and goes on after it |
| Links.TokenizeNone | echo-attack-dashboard/src/lib/mitre-links.tsx:39-42 | once nothing is found, the rest of the text is one plain part, if not empty |
| Links.TokenizeRebuilds | echo-attack-dashboard/src/lib/mitre-links.tsx:13-42 | joining the parts in order, links in their source form, gives back the text |
| Links.TokenizeShape | echo-attack-dashboard/src/lib/mitre-links.tsx:15-34 | for a URL prefix without ')', every link part has a non-empty text without ']' and a URL that starts with the prefix and holds no ')', keyed where it starts; every plain part is non-empty |
| Links.RenderShape | echo-attack-dashboard/src/lib/mitre-links.tsx:15-44 | every link part of a rendered fragment is a well-formed attack.mitre.org link keyed at a '[' of the text |
| Links.RenderEmpty | echo-attack-dashboard/src/lib/mitre-links.tsx:4 | the empty text is returned as it is |
| Links.NoBracketIsText | echo-attack-dashboard/src/lib/mitre-links.tsx:44 | a text without '[' holds no link and comes back as plain text |
| Links.PrefixedTokens | echo-attack-dashboard/src/lib/mitre-links.tsx:13-42 | a text without '[' followed by a link is scanned into the text, if not empty, and the link |
| Links.PrefixedLink | echo-attack-dashboard/src/lib/mitre-links.tsx:13-44 | plain text followed by a link gives two parts, the text and the link |
| Links.LoneLinkIsText | echo-attack-dashboard/src/lib/mitre-links.tsx:44 | a lone link is one part, so the text is returned as it is, not as a link |
| Links.LinkMatches | echo-attack-dashboard/src/lib/mitre-links.tsx:7 | a well-formed link written out is matched where it starts and ends where it ends |
| Links.LinkUrl | echo-attack-dashboard/src/lib/mitre-links.tsx:70-77 | the builder of each of the three types, '#' for any other |
| Links.BuiltUrlsAreLinks | echo-attack-dashboard/src/lib/mitre-links.tsx:47-57 | a built URL for an id without ')' is one the link pattern accepts, ending with the id; '#' is not |
| GroupsView.FilteredGroups | mitre-nextjs-dashboard/src/components/apt-groups-dashboard.tsx:36-43 | the listed entries are a subsequence of the map's entries |
| GroupsView.FilteredGroupsMembers | mitre-nextjs-dashboard/src/components/apt-groups-dashboard.tsx:37-42 | an entry is listed exactly when it is one of the map's and its name, id or description contains the term |
| GroupsView.EmptySearchKeepsAll | mitre-nextjs-dashboard/src/components/apt-groups-dashboard.tsx:31-43 | the empty search box lists every group, in order |
| GroupsView.SearchIgnoresCase | mitre-nextjs-dashboard/src/components/apt-groups-dashboard.tsx:38-40 | the search ignores the case of the term |
| GroupsView.IdMatchListed | mitre-nextjs-dashboard/src/components/apt-groups-dashboard.tsx:39 | a group whose id contains the term is always listed |
| GroupsView.UsageRate | mitre-nextjs-dashboard/src/components/apt-groups-dashboard.tsx:64 | undefined exactly for no rows; otherwise the integer nearest to 100·used/total, a half rounded up, 100 when all are used, 0 when none is |
| GroupsView.Stats | mitre-nextjs-dashboard/src/components/apt-groups-dashboard.tsx:46-47 | no statistics exactly when no group is selected |
| GroupsView.AllSubsCount | mitre-nextjs-dashboard/src/components/apt-groups-dashboard.tsx:54-55 | the flattened sub-techniques number the sum of the list lengths |
| GroupsView.UsedSubsAgrees | mitre-nextjs-dashboard/src/components/apt-groups-dashboard.tsx:51-53 | the used sub-techniques of the flattened list are the overview's per-row counter |
| GroupsView.StatsProperties | mitre-nextjs-dashboard/src/components/apt-groups-dashboard.tsx:49-64 | used counts at most the totals, missing arrays count 0, the rate undefined only without rows and at most 100 otherwise |
| GroupsView.TableRows | mitre-nextjs-dashboard/src/components/apt-groups-dashboard.tsx:292 | the table shows a subsequence of the rows |
| GroupsView.TableRowsSwitch | mitre-nextjs-dashboard/src/components/apt-groups-dashboard.tsx:292 | with the switch on exactly the used rows, with it off every row |
| CacheFilter.KeepUsed | mitre_cache.py:117-140 | a used row is kept as it is; an unused row is kept, holding only its used sub-techniques, exactly when it has some |
| CacheFilter.FilterUsed | mitre_cache.py:102-147 | the table never grows, and every row left is used or holds a non-empty list of used sub-techniques |
| CacheFilter.UsedSubtechniques | mitre_cache.py:129-133 | the loop collects exactly the used sub-techniques, in order |
| CacheFilter.FilterUsedTechniques | mitre_cache.py:102-147 | the loop computes the filtered table |
| CacheFilter.FilterUsedMembers | mitre_cache.py:117-140 | a row is in the filtered table exactly when some input row is kept as it |
| CacheFilter.FilterUsedKeepsUsedRows | mitre_cache.py:119-122 | the used rows pass through unchanged and in order |
| CacheFilter.FilterUsedIdempotent | mitre_cache.py:102-147 | filtering a filtered table changes nothing |
| CacheFilter.FilterUsedConcat | mitre_cache.py:117 | the filter works row by row |
| CacheFilter.LowerAll | mitre_cache.py:402 | each alias lower-cased, in order |
| CacheFilter.SubsScoreLoop | mitre_cache.py:412-415 | the loop adds 5 per used sub-technique whose name contains the term |
| CacheFilter.RowsScoreLoop | mitre_cache.py:406-415 | the loop adds the scores of every row and its sub-techniques |
| CacheFilter.SoftwareScoreLoop | mitre_cache.py:418-420 | the loop adds 4 per software name containing the term |
| CacheFilter.CalculateRelevance | mitre_cache.py:393-426 | the relevance of the term for the group: 10 for the name, 8 for an alias, 5 per used row or sub-technique, 4 per software, 2 for the description |
| CacheFilter.RowsScoreZero | mitre_cache.py:406-415 | the technique score is zero exactly when no used row or sub-technique name contains the term |
| CacheFilter.RelevanceZeroIff | mitre_cache.py:393-426 | a term scores nothing exactly when it is not the name, nor an alias, in no used row or sub-technique name, in no software name and not in the description |
| CacheFilter.NameAndAliasScores | mitre_cache.py:398-403 | the lower-cased name scores at least 10, an alias at least 8 |
| CacheFilter.RowsScoreOfFiltered | mitre_cache.py:405-415 | filtering the table at load time leaves every technique score as it was |
| CacheFilter.RelevanceOfFilteredGroup | mitre_cache.py:149-160 | a group's relevance is the same before and after the load-time filter |
| CacheLookup.AddUser | mitre_cache.py:543-545 | adding a user keeps the dictionary well-formed |
| CacheLookup.AddUserInTwoSteps | mitre_cache.py:543-545 | creating the set when missing and then adding to it is one `AddUser` |
| CacheLookup.Record | mitre_cache.py:537-555 | recording uses keeps the dictionary well-formed |
| CacheLookup.AllTechniques | mitre_cache.py:530-557 | the result is a well-formed dictionary |
| CacheLookup.RecordMembers | mitre_cache.py:543-555 | a key is present exactly when it was or some use records it, and holds exactly the ids it held or that are recorded with it |
| CacheLookup.SubUsesMembers | mitre_cache.py:548-555 | a sub-technique use is recorded exactly for a used sub-technique with an id, keyed `parent.sub` |
| CacheLookup.UsesMembers | mitre_cache.py:537-555 | a pair is recorded exactly when a visited group with that id uses that key |
| CacheLookup.AllTechniquesSpec | mitre_cache.py:530-557 | a key is present exactly when some group uses it; its set is exactly the ids of the groups using it, never empty |
| CacheLookup.AddTo | mitre_cache.py:543-545 | the in-place update is `AddUser` |
| CacheLookup.RecordSubtechniques | mitre_cache.py:548-555 | the loop records each used sub-technique of a row |
| CacheLookup.RecordTechnique | mitre_cache.py:539-555 | one row records its own use, then its sub-techniques' |
| CacheLookup.RecordGroup | mitre_cache.py:538-555 | one group records the uses of all its rows |
| CacheLookup.GetAllTechniques | mitre_cache.py:530-557 | the loops compute `AllTechniques` of the cache's groups |
| CacheLookup.GroupsByTechnique | mitre_cache.py:487-512 | the listed groups are a subsequence of the cache, exactly those using the technique |
| CacheLookup.SubtechniqueMatches | mitre_cache.py:503-507 | the inner loop finds a used sub-technique matching by id or name exactly when one exists |
| CacheLookup.GroupUsesTechnique | mitre_cache.py:495-510 | the loop with its two breaks finds exactly whether the group uses the technique |
| CacheLookup.GetAptGroupsByTechnique | mitre_cache.py:487-512 | each group is listed once, in order, exactly when it uses the technique |
| CacheLookup.UnusedGroupNotListed | mitre_cache.py:497-505 | a group whose rows and sub-techniques are all unused is never listed |
| CacheLookup.ListedById | mitre_cache.py:497-500 | a group with a used row of the id is listed |
| CacheLookup.GroupsBySoftware | mitre_cache.py:514-528 | the listed groups are a subsequence of the cache, exactly those with a matching software name |
| CacheLookup.GroupUsesSoftware | mitre_cache.py:523-526 | the loop finds a software name containing the query exactly when one exists |
| CacheLookup.GetAptGroupsBySoftware | mitre_cache.py:514-528 | each group is listed once, in order, exactly when one of its software names contains the query |
| CacheLookup.SoftwareLookupIgnoresCase | mitre_cache.py:520-524 | the software lookup ignores the case of the query |
| CacheSearch.DescriptionTerms | mitre_cache.py:373-375 | every description term is a word longer than three characters |
| CacheSearch.CollectSubTerms | mitre_cache.py:363-365 | the loop appends the lower-cased names of the used, named sub-techniques |
| CacheSearch.CollectRowTerms | mitre_cache.py:358-365 | one row appends its terms |
| CacheSearch.CollectTechniqueTerms | mitre_cache.py:357-365 | the loop appends the terms of each row in order |
| CacheSearch.CollectSoftwareTerms | mitre_cache.py:368-370 | the loop appends the lower-cased names of the named software |
| CacheSearch.CollectTerms | mitre_cache.py:353-375 | the index builder collects exactly the group's terms, in order |
| CacheSearch.FilterLongWords | mitre_cache.py:375 | the loop keeps exactly the words longer than three characters |
| CacheSearch.SubTermsMembers | mitre_cache.py:363-365 | a sub-technique term is exactly the lower-cased name of a used, named sub-technique |
| CacheSearch.SubTermIndexedIffNamedRow | mitre_cache.py:358-365 | a used sub-technique's name is indexed exactly when its row has a name |
| CacheSearch.SoftwareTermsMembers | mitre_cache.py:368-370 | a software term is exactly the lower-cased name of a named software entry |
| CacheSearch.GroupTermsMembers | mitre_cache.py:353-375 | the terms are exactly the name, the aliases, the row terms, the software names and the long description words, all lower-cased |
| CacheSearch.IndexTerm | mitre_cache.py:379-385 | one insert, skipped for a term that strips to empty |
| CacheSearch.IndexGroup | mitre_cache.py:378-385 | the loop over the distinct terms inserts exactly the group's index rows |
| CacheSearch.IndexRowsShape | mitre_cache.py:378-385 | every index row has a non-empty stripped term of the group, that term's relevance and the group's name |
| CacheSearch.TermIndexed | mitre_cache.py:378-385 | every collected term that strips to something is indexed with its own relevance |
| CacheSearch.NameIndexed | mitre_cache.py:353-399 | the lower-cased name is indexed and scores at least 10 |
| CacheSearch.DescriptionWordIndexed | mitre_cache.py:373-385 | each description word longer than three characters is indexed |
| CacheSearch.SearchIndexMembers | mitre_cache.py:351 | a row is in the index exactly when it is a row of one of the items |
| CacheSearch.BuildIndex | mitre_cache.py:343-388 | the loop over the cache's items fills exactly the index |
| CacheSearch.Truncate200 | mitre_cache.py:458 | a description longer than 200 characters is cut to 200 and "..."; a shorter one is kept |
| CacheSearch.HitFor | mitre_cache.py:455-464 | a hit carries the row's id, score and context and the group's name, cut description, aliases and counts |
| CacheSearch.Hits | mitre_cache.py:450-464 | only rows whose group is in the cache give hits, never more than the rows |
| CacheSearch.HitsOf | mitre_cache.py:450-464 | the loop builds exactly the hits |
| CacheSearch.UniqueResults | mitre_cache.py:467-474 | the loop keeps the first hit per group and cuts to `max_results` |
| CacheSearch.RankResults | mitre_cache.py:466-474 | the hits are sorted by relevance, de-duplicated by group and cut |
| CacheSearch.RankedProperties | mitre_cache.py:466-474 | at most `max_results`, one per group, in non-increasing relevance, each one of the hits; a hit whose group is left out comes with `max_results` results, the last at least as relevant |
| CacheSearch.RankedMaximal | mitre_cache.py:466-474 | a group left out of the results means `max_results` came back, the last at least as relevant as any hit of that group |
| CacheSearch.RankedKeepsBest | mitre_cache.py:469-472 | each result carries the highest relevance of any hit for its group |
| CacheSearch.RankedComplete | mitre_cache.py:474 | when fewer than `max_results` come back, every hit's group is among them |
| CacheService.LoadAptGroup | mitre_cache.py:155-174 | a record as loaded is the record read with its technique table filtered |
| CacheService.FromFiles | mitre_cache.py:291-299 | the loaded map is well-formed and every group sits under its own id |
| CacheService.FromFilesKeys | mitre_cache.py:296-299 | an id is a key exactly when some file has it |
| CacheService.FromFilesLastWins | mitre_cache.py:299 | the group kept under an id is the last file with that id, as loaded |
| CacheService.LoadFromFiles | mitre_cache.py:284-306 | the loop builds exactly the map of the files |
| CacheService.ChooseData | mitre_cache.py:197-213 | the file data or the database cache: the cache when it is fresh and non-empty, or when the files gave nothing |
| CacheService.MitreCache.constructor | mitre_cache.py:44-60 | a fresh service holds no groups, is not loaded and has an empty index |
| CacheService.MitreCache.BuildSearchIndex | mitre_cache.py:343-391 | the index is rebuilt from the memory cache, which stays as it was |
| CacheService.MitreCache.LoadMitreData | mitre_cache.py:190-221 | once loaded with some groups nothing changes; otherwise the chosen groups become the memory cache, the flag is set and the index rebuilt |
| CacheService.MitreCache.GetAptGroup | mitre_cache.py:480-485 | the group under the id, if there is one |
| CacheService.MitreCache.GetAllTechniques | mitre_cache.py:530-557 | the technique users of the memory cache |
| CacheService.MitreCache.GetAptGroupsByTechnique | mitre_cache.py:487-512 | the groups of the memory cache that use the technique |
| CacheService.MitreCache.GetAptGroupsBySoftware | mitre_cache.py:514-528 | the groups of the memory cache with a matching software name |
| CacheService.MitreCache.SearchAptGroups | mitre_cache.py:428-478 | the returned rows' hits, ranked, de-duplicated and cut |
| Stix.FirstIdIndex | get_mitre_data/util/buildhelpers.py:69-74 | the first reference with a non-empty id, -1 when there is none |
| Stix.FindIndexId | get_mitre_data/util/buildhelpers.py:69-74 | the loop returns the first index with an id, or -1 |
| Stix.AttackId | get_mitre_data/util/buildhelpers.py:57-66 | an id exactly when some reference has a non-empty one, and then the first such |
| Stix.GetAttackId | get_mitre_data/util/buildhelpers.py:57-66 | the method gives the first reference's id, or None |
| Stix.NewReferenceList | get_mitre_data/util/buildhelpers.py:77-90 | the reference list holds only the counter entry |
| Stix.CitationTagIsContains | get_mitre_data/util/buildhelpers.py:82 | the "(Citation:" test is substring containment |
| Stix.UpdateReferenceList | get_mitre_data/util/buildhelpers.py:77-90 | the loop adds the object's references in order |
| Stix.FirstCited | get_mitre_data/util/buildhelpers.py:81-85 | the first cited reference with a source name, -1 when there is none |
| Stix.AddRefsKeeps | get_mitre_data/util/buildhelpers.py:84-89 | an entry already listed is never overwritten or removed |
| Stix.AddRefsAdded | get_mitre_data/util/buildhelpers.py:81-89 | a new source name is listed exactly when a cited reference carries it, with the first such reference's citation, url included when present |
| Stix.FirstCitedExists | get_mitre_data/util/buildhelpers.py:81-85 | the first cited index is found exactly when some cited reference has the name |
| Stix.AddRefsCovers | get_mitre_data/util/buildhelpers.py:81-89 | afterwards every cited reference's source name is listed |
| Stix.AddRefsNoop | get_mitre_data/util/buildhelpers.py:84-85 | references that are all listed already change nothing |
| Stix.AddRefsIdempotent | get_mitre_data/util/buildhelpers.py:77-90 | updating twice from the same object is updating once |
| Stix.AliasRowOf | get_mitre_data/util/buildhelpers.py:99-104 | at most one row per alias |
| Stix.AliasRows | get_mitre_data/util/buildhelpers.py:93-105 | at most one row per alias of the list |
| Stix.AddAliasRow | get_mitre_data/util/buildhelpers.py:99-104 | one loop step appends the alias's row, if any |
| Stix.GetAliasData | get_mitre_data/util/buildhelpers.py:93-105 | the loop builds the alias rows, empty for an empty alias list |
| Stix.AliasRowsInOrder | get_mitre_data/util/buildhelpers.py:98-104 | the rows' names follow the alias list in order |
| Stix.AliasRowsMembers | get_mitre_data/util/buildhelpers.py:98-104 | a row exists exactly for a listed alias whose first same-named reference has a description, which the row carries |
| Stix.FilterDeprecatedRevoked | get_mitre_data/util/buildhelpers.py:116-123 | the loop keeps the objects neither deprecated nor revoked |
| Stix.FilterCurrentProperties | get_mitre_data/util/buildhelpers.py:116-123 | the kept objects are in order, exactly the current ones, and filtering again changes nothing |
| Stix.SplitRoundTrip | get_mitre_data/util/buildhelpers.py:136-141 | a parent and a local id without '.' are split back out of their join |
| Stix.SubTidSplits | get_mitre_data/util/buildhelpers.py:131-141 | a sub-technique id splits into a technique id and its local part, which rebuild it, and it is no technique id |
| Stix.TidOfDigits | get_mitre_data/util/buildhelpers.py:126-133 | "T" and four digits is a technique id and no sub-technique id |
| Stix.SubTidBranches | get_mitre_data/util/buildhelpers.py:131-141 | the corrected test implies the pattern as written; the two tests differ exactly on strings where `get_sub_technique_id` has no local part and the source raises |
| Stix.SubTidWithoutDot | get_mitre_data/util/buildhelpers.py:131-141 | a string the unescaped pattern accepts without a '.' separator is no sub-technique id and has no local part |
| Stix.SubTidAnySeparator | get_mitre_data/util/buildhelpers.py:131-133 | "T1055x001" passes the pattern as written but is no sub-technique id |
| StixHelpers.EmptyState | get_mitre_data/util/stixhelpers.py:52-53 | both maps start empty |
| StixHelpers.ConflictId | get_mitre_data/util/stixhelpers.py:82-93 | a conflict is the different, still listed ATT&CK id the object's STIX id was seen under |
| StixHelpers.Replace | get_mitre_data/util/stixhelpers.py:95-105 | replacing keeps the ordered ATT&CK map well-formed |
| StixHelpers.Deconflict | get_mitre_data/util/stixhelpers.py:107-151 | one step keeps the ordered ATT&CK map well-formed |
| StixHelpers.DeconflictAll | get_mitre_data/util/stixhelpers.py:55-58 | the whole walk keeps the ordered ATT&CK map well-formed |
| StixHelpers.DedupMaps.constructor | get_mitre_data/util/stixhelpers.py:52-53 | the two dictionaries start empty |
| StixHelpers.DedupMaps.ReplaceObject | get_mitre_data/util/stixhelpers.py:95-105 | the dictionaries become the replaced state |
| StixHelpers.DedupMaps.AddReplaceOrIgnore | get_mitre_data/util/stixhelpers.py:73-151 | the dictionaries become the state after one object |
| StixHelpers.DeconflictAllConcat | get_mitre_data/util/stixhelpers.py:55-58 | walking two lists is walking the first and then the second |
| StixHelpers.AddAll | get_mitre_data/util/stixhelpers.py:56-58 | the inner loop leaves the state after every object of one query |
| StixHelpers.GetAllOfType | get_mitre_data/util/stixhelpers.py:47-60 | the objects kept under ATT&CK ids, in insertion order |
| StixHelpers.DeconflictNoId | get_mitre_data/util/stixhelpers.py:108-112 | an object without an ATT&CK id changes nothing |
| StixHelpers.DeconflictInsertsNew | get_mitre_data/util/stixhelpers.py:129-132 | a new ATT&CK id without conflict is appended with its object |
| StixHelpers.DeconflictCompetes | get_mitre_data/util/stixhelpers.py:95-151 | a competing object is ignored, or takes its ATT&CK id and STIX id and drops the conflicting id |
| StixHelpers.ReplacesRule | get_mitre_data/util/stixhelpers.py:134-151 | current beats deprecated both ways round; otherwise the strictly later modified wins, so a tie keeps the kept object |
| StixHelpers.DeconflictStixIds | get_mitre_data/util/stixhelpers.py:117-121 | the STIX map gains the object's STIX id when absent and keeps the other entries; a changed entry means the object was taken |
| StixHelpers.DeconflictAllKeyed | get_mitre_data/util/stixhelpers.py:55-60 | every kept object sits under its own ATT&CK id and STIX id throughout |
| StixHelpers.AllOfTypeDistinctIds | get_mitre_data/util/stixhelpers.py:47-60 | the returned objects all have ATT&CK ids, no two the same |
| StixHelpers.DedupByStixId | get_mitre_data/util/stixhelpers.py:21-44 | the loop keeps the first object of each STIX id, in order |
| StixHelpers.DedupByStixIdProperties | get_mitre_data/util/stixhelpers.py:17-44 | exactly one object per STIX id of the input, in input order, the first of each kept |
| StixHelpers.NameBeforeStrict | get_mitre_data/util/stixhelpers.py:12-14 | the name order is a strict order |
| StixHelpers.MitigationListProperties | get_mitre_data/util/stixhelpers.py:6-14 | sorted by lowercased name, a permutation of the input minus the deprecated ones unless asked for |
| StixHelpers.TechniquesProperties | get_mitre_data/util/stixhelpers.py:63-70 | sorted by lowercased name, a permutation of the techniques of the domain or without a domain list |
| TechniqueUsed.TechniqueName | get_mitre_data/util/buildhelpers.py:144-154 | the name of the first technique with the id, None (the NOT_FOUND) exactly when no technique has it |
| TechniqueUsed.GetTechniqueName | get_mitre_data/util/buildhelpers.py:144-154 | the loop returns at the first technique with the id |
| TechniqueUsed.LocalId | get_mitre_data/util/buildhelpers.py:203-206 | a sub-technique row carries the local part, which rebuilds the id with the parent; any other row carries the id |
| TechniqueUsed.RelDescr | get_mitre_data/util/buildhelpers.py:208-209 | a relationship gives its description exactly when it is not empty |
| TechniqueUsed.TechniqueData | get_mitre_data/util/buildhelpers.py:196-212 | a row exactly when the id has a domain: used, no sub-techniques, the object's name, the domain prefix, the local id and the relationship's description |
| TechniqueUsed.GetTechniqueDataHelper | get_mitre_data/util/buildhelpers.py:196-212 | the row, with the citations added only when a row is built |
| TechniqueUsed.ParentData | get_mitre_data/util/buildhelpers.py:215-223 | the parent row is unused, empty, carries the parent id and the parent technique's name |
| TechniqueUsed.ParentTechniqueUsedHelper | get_mitre_data/util/buildhelpers.py:215-223 | the method builds the parent row |
| TechniqueUsed.MergeDescr | get_mitre_data/util/buildhelpers.py:170-185 | appends the new description after a newline, takes it when there was none, and keeps the old one otherwise |
| TechniqueUsed.SameIdIndex | get_mitre_data/util/buildhelpers.py:168-169 | the first sub-technique row with the id, -1 when there is none |
| TechniqueUsed.MergeSubtechnique | get_mitre_data/util/buildhelpers.py:168-176 | the for-else loop merges into the first same-id row or appends |
| TechniqueUsed.IdBeforeStrict | get_mitre_data/util/buildhelpers.py:177-179 | the id order is a strict order |
| TechniqueUsed.AddSub | get_mitre_data/util/buildhelpers.py:164-179 | putting a sub-technique under its parent keeps the technique list well-formed |
| TechniqueUsed.AddNew | get_mitre_data/util/buildhelpers.py:160-187 | adding a new or inherited technique keeps the technique list well-formed |
| TechniqueUsed.MarkUsed | get_mitre_data/util/buildhelpers.py:188-192 | marking a row used keeps the technique list well-formed |
| TechniqueUsed.UseTechnique | get_mitre_data/util/buildhelpers.py:157-193 | one call keeps the technique list well-formed |
| TechniqueUsed.AddSubtechnique | get_mitre_data/util/buildhelpers.py:164-179 | the sub-technique branch puts the row under its parent |
| TechniqueUsed.TechniqueUsedHelper | get_mitre_data/util/buildhelpers.py:157-193 | the method leaves the technique list and citations of one call |
| TechniqueUsed.UseTechniqueUnchanged | get_mitre_data/util/buildhelpers.py:158-163 | nothing changes without an ATT&CK id, nor for a new or inherited id without a domain |
| TechniqueUsed.PutNoSubKeys | get_mitre_data/util/buildhelpers.py:180-187 | adding a row under a non-sub-technique key keeps every key a non-sub-technique id |
| TechniqueUsed.UseTechniqueNoSubKeys | get_mitre_data/util/buildhelpers.py:157-193 | no key of the technique list is ever a sub-technique id |
| TechniqueUsed.TidNotSubTid | get_mitre_data/util/buildhelpers.py:126-133 | a technique id is no sub-technique id |
| TechniqueUsed.ParentCreatedUnused | get_mitre_data/util/buildhelpers.py:164-176 | a sub-technique whose parent is missing creates the parent unused, named after the parent, holding only the new row |
| TechniqueUsed.PutKeepsSorted | get_mitre_data/util/buildhelpers.py:177-179 | a row with sorted sub-techniques keeps every list sorted |
| TechniqueUsed.AddSubKeepsSorted | get_mitre_data/util/buildhelpers.py:164-179 | the sub-technique branch keeps every sub-technique list sorted by id |
| TechniqueUsed.UseTechniqueKeepsSorted | get_mitre_data/util/buildhelpers.py:157-193 | one call keeps every sub-technique list sorted by id |
| TechniqueUsed.RepeatMarksUsed | get_mitre_data/util/buildhelpers.py:188-192 | meeting a listed id again, not inherited, makes an unused row used with the relationship's description, and leaves a used row alone; no other row changes |
| TechniqueUsed.MergeSubCount | get_mitre_data/util/buildhelpers.py:168-176 | an inherited row merges into a same-id row when there is one; any other row is appended, so a repeated sub-technique is listed twice |
| GroupsBuild.SortByName | get_mitre_data/groups.py:182-186 | the sort raises exactly when some name is the NOT_FOUND |
| GroupsBuild.SortByNameProperties | get_mitre_data/groups.py:182-186 | a sort that does not raise is ordered by lowercased name and is a permutation of its input |
| GroupsBuild.TechRefSplits | get_mitre_data/groups.py:166-177 | a technique without an ATT&CK id gives no entry; a sub-technique id is split into parent and local id, which rebuild it, named after the parent; any other id is kept whole |
| GroupsBuild.TechRefsCount | get_mitre_data/groups.py:165-177 | one entry per technique with an ATT&CK id |
| GroupsBuild.GetTechRef | get_mitre_data/groups.py:166-177 | the entry one loop step appends, if any |
| GroupsBuild.CollectTechRefs | get_mitre_data/groups.py:165-177 | the technique loop appends the entries of the techniques in order |
| GroupsBuild.SortTechniques | get_mitre_data/groups.py:181-184 | a row without techniques is left alone; otherwise the sort, which raises exactly when a name is the NOT_FOUND |
| GroupsBuild.AddRefsExtends | get_mitre_data/groups.py:154-160 | updating the reference list only adds citations |
| GroupsBuild.RelationshipRefsExtends | get_mitre_data/groups.py:156-160 | a relationship's references only add citations |
| GroupsBuild.OrEmpty | get_mitre_data/groups.py:145-150 | a missing or empty property is "", a present one is copied |
| GroupsBuild.SeenDate | get_mitre_data/groups.py:143-144 | a missing date is "" |
| GroupsBuild.CampaignList | get_mitre_data/groups.py:133-177 | the campaign loop keeps the row map well-formed |
| GroupsBuild.AddCampaign | get_mitre_data/groups.py:135-177 | one loop step gives the campaign step's rows, citations and flag |
| GroupsBuild.BuildCampaignData | get_mitre_data/groups.py:179-186 | the rows with sorted technique lists, sorted by name, or the first error |
| GroupsBuild.CampaignDataStaysErr | get_mitre_data/groups.py:179-185 | once a row's sort raised, later rows change nothing |
| GroupsBuild.GetCampaignTableData | get_mitre_data/groups.py:124-187 | the campaign table, its flag and its citations |
| GroupsBuild.BuildCampaignList | get_mitre_data/groups.py:133-177 | the loop from an empty list and a clear flag gives the rows of the walk |
| GroupsBuild.CampaignStepFirstWins | get_mitre_data/groups.py:136-151 | rows are keyed by STIX id, the first campaign of an id wins, missing dates and citations are "" |
| GroupsBuild.CampaignStepFlag | get_mitre_data/groups.py:152-160 | the flag only turns on, from a date citation or a relationship description, and citations only grow |
| GroupsBuild.CampaignListExtends | get_mitre_data/groups.py:133-177 | the campaign loop never clears the flag and only adds citations |
| GroupsBuild.CampaignDataSorted | get_mitre_data/groups.py:179-186 | without an error every row is kept and each technique list is sorted by name |
| GroupsBuild.UpdateSoftware | get_mitre_data/groups.py:250-279 | the pairings loop keeps the row map well-formed |
| GroupsBuild.SoftwareOfCampaigns | get_mitre_data/groups.py:222-231 | the campaign loop keeps the row map well-formed |
| GroupsBuild.AddSoftware | get_mitre_data/groups.py:253-278 | one loop step gives the software step's rows, citations and flag |
| GroupsBuild.AddPairing | get_mitre_data/groups.py:251-278 | one pairing's loop gives the rows of its software in order |
| GroupsBuild.UpdateSoftwareList | get_mitre_data/groups.py:243-279 | the rows, citations and flag after every pairing for the id |
| GroupsBuild.BuildSoftwareData | get_mitre_data/groups.py:232-239 | the rows with sorted technique lists, sorted by name, or the first error |
| GroupsBuild.SoftwareDataStaysErr | get_mitre_data/groups.py:232-238 | once a row's sort raised, later rows change nothing |
| GroupsBuild.GetSoftwareTableData | get_mitre_data/groups.py:190-240 | the software table, its flag and its citations |
| GroupsBuild.UpdateCampaignSoftware | get_mitre_data/groups.py:222-231 | the campaign loop gives the rows of every campaign's software |
| GroupsBuild.SoftwareStepFirstWins | get_mitre_data/groups.py:253-262 | rows are keyed by STIX id, first seen wins, a new row needs an ATT&CK id; the flag turns on only with a copied description; citations only grow |
| GroupsBuild.SoftwareOfPairingKeeps | get_mitre_data/groups.py:251-278 | a pairing never drops or changes a listed row or clears the flag |
| GroupsBuild.UpdateSoftwareKeeps | get_mitre_data/groups.py:243-279 | update_software_list never drops or changes a listed row, never clears the flag and only adds citations |
| GroupsBuild.UseIfCurrent | get_mitre_data/groups.py:96-98 | one step keeps the technique list well-formed |
| GroupsBuild.UseAll | get_mitre_data/groups.py:95-98 | the technique loop keeps the technique list well-formed |
| GroupsBuild.UseCampaigns | get_mitre_data/groups.py:106-116 | the campaign loop keeps the technique list well-formed |
| GroupsBuild.UseTechniques | get_mitre_data/groups.py:94-116 | the loop gives the walk's technique list and citations, and says whether a current technique was met |
| GroupsBuild.GetTechniquesUsedByGroupData | get_mitre_data/groups.py:85-121 | the technique table, the inherited flag and the citations |
| GroupsBuild.UseCampaignTechniques | get_mitre_data/groups.py:105-116 | the campaign loop gives the walk's techniques and the inherited flag |
| GroupsBuild.AnyCurrentIff | get_mitre_data/groups.py:112-113 | a list has a current technique exactly when one is not deprecated |
| GroupsBuild.InheritedIff | get_mitre_data/groups.py:105-116 | the inherited flag holds exactly when some campaign of the group has a technique that is not deprecated |
| GroupsBuild.UseAllSkipsDeprecated | get_mitre_data/groups.py:96-97 | deprecated techniques change nothing |
| GroupsBuild.UseAllKeepsSorted | get_mitre_data/groups.py:95-98 | no technique loop leaves a sub-technique list unsorted |
| GroupsBuild.UseCampaignsKeepsSorted | get_mitre_data/groups.py:106-116 | the campaign loop keeps sub-technique lists sorted |
| GroupsBuild.TechniquesUsedSorted | get_mitre_data/groups.py:118-121 | without an error the rows are sorted by name and each row's sub-techniques by id |
| GroupsBuild.ProcessSingleGroup | get_mitre_data/groups.py:27-82 | the record of one group, None without an ATT&CK id, the first sort error otherwise |
| GroupsBuild.ProcessGroupsData | get_mitre_data/groups.py:6-24 | NotImplemented without both arguments; otherwise the current groups processed in order until one raises |
| GroupsBuild.ProcessEach | get_mitre_data/groups.py:19-24 | the loop processes the groups in order |
| GroupsBuild.CollectSnoc | get_mitre_data/groups.py:20-23 | one more result adds its record, adds nothing, or raises |
| GroupsBuild.CollectErrAppend | get_mitre_data/groups.py:20-23 | once a result raised, later results change nothing |
| GroupsBuild.CollectOkIff | get_mitre_data/groups.py:20-23 | collecting succeeds exactly when no result raised |
| GroupsBuild.CollectFirstErr | get_mitre_data/groups.py:20-23 | a failure carries the error of the first result that raised |
| GroupsBuild.CollectRecords | get_mitre_data/groups.py:20-23 | one record per result that is a record, each from its result |
| GroupsBuild.ProcessedOk | get_mitre_data/groups.py:19-24 | on success every current group's record was computed without raising |
| GroupsBuild.ProcessedErr | get_mitre_data/groups.py:19-24 | a failure is the error of the first current group whose record raised |
| GroupsBuild.ProcessedRecord | get_mitre_data/groups.py:19-24 | each result record is some current group's record, one per group with a record |
| GroupsBuild.ProcessedUnique | get_mitre_data/groups.py:19-24 | the result does not depend on how far processing went |
| GroupsBuild.PrefixCollect | get_mitre_data/groups.py:19-24 | a longer prefix that stops only at an error collects to the same result |
| GroupsBuild.SingleGroupRecord | get_mitre_data/groups.py:31-80 | no record without an ATT&CK id; a record carries it, aliases_list is every alias but the first, and alias descriptions only come with more than one alias |
| GroupsBuild.SingleGroupCitations | get_mitre_data/groups.py:57-77 | the citations hold every cited reference of the group as the group gave it |
| GroupsBuild.UseAllExtends | get_mitre_data/groups.py:95-98 | the technique loop only adds citations |
| GroupsBuild.UseTechniqueExtends | get_mitre_data/groups.py:98 | technique_used_helper only adds citations |
| GroupsBuild.UseCampaignsExtends | get_mitre_data/groups.py:106-116 | the campaign loop only adds citations |
| GroupsBuild.TechniquesUsedExtends | get_mitre_data/groups.py:85-121 | the technique table only adds citations |
| GroupsBuild.SoftwareOfPairingExtends | get_mitre_data/groups.py:251-278 | a pairing only adds citations |
| GroupsBuild.UpdateSoftwareExtends | get_mitre_data/groups.py:243-279 | update_software_list only adds citations |
| GroupsBuild.SoftwareOfCampaignsExtends | get_mitre_data/groups.py:222-231 | the campaign software loop only adds citations |
| GroupsBuild.SoftwareTableExtends | get_mitre_data/groups.py:190-240 | the software table only adds citations |

## Left out

- Rendering and UI state are not modelled: JSX, Streamlit widgets, CSS themes, Chart.js, Plotly and pandas figures, and tab routing. They only display values the model computes.
- The counter animation of the overview dashboard is not modelled. It is timers and floating-point easing.
- The SQLite tables, file reads, SHA-256 file hashes and the datetime cache validity of the cache service are not modelled. Their results are parameters: the groups the database cache holds, whether the files are newer, the records read from the files, and the rows a `LIKE` query returns.
- The `INSERT OR IGNORE` writes of the search-index rows are left out. The model gives the rows to insert, not the table's uniqueness handling.
- `get_cache_stats`, `refresh_cache` and the asyncio drivers of the cache service are left out. They are I/O and scheduling.
- CacheService.MitreCache.GetAptGroup: the source loads the cache first when it is not loaded; the model reads the memory cache as it is, so a caller calls `LoadMitreData` first.
- CacheService.MitreCache.GetAllTechniques: same auto-load omission as `GetAptGroup`.
- CacheService.MitreCache.GetAptGroupsByTechnique: same auto-load omission as `GetAptGroup`.
- CacheService.MitreCache.GetAptGroupsBySoftware: same auto-load omission as `GetAptGroup`.
- CacheService.MitreCache.SearchAptGroups: same auto-load omission as `GetAptGroup`. Its `except Exception: return []` is left out together with the SQLite rows: the rows the `LIKE` queries returned are a parameter.
- CacheFilter.FilterUsedTechniques: the log counters of `_filter_used_techniques` are not kept. They are only printed.
- The `fs` reads of the data loader are left out. The file contents are the constructor's parameter.
- Downloading the STIX bundles, building the STIX memory stores and writing the output files (both `main.py`) are left out. They are network and file I/O.
- `format_date` and `format_date_as_month_year` are left out. They are `datetime` parsing and formatting. The two formatters are functions passed in `GroupsBuild.Sources`; timestamps are integers that keep only their order.
- `relationshipgetters.py` and the `stix2` queries are not modelled. The relationship maps, the technique list and the technique-to-domain map are inputs.
- `route.ts` of the second Next.js app only serialises data and is not part of this model. The types file has no logic; it only gave the shapes of the datatypes.
- Numbers.RoundPercent: gives the exact nearest integer to 100·part/whole, a half rounded up. JavaScript first computes `part / whole * 100` in IEEE doubles, and where the exact value is a half the double can fall just below it: 23/40 gives 57.49999999999999, so `Math.round` shows 57 where the model gives 58; 29/200 and 57/200 likewise show 14 and 28 where the model gives 15 and 29. Double rounding is not modelled.
- TtpIndex.UsagePercentage: the same double-rounding difference as `Numbers.RoundPercent`.
- TtpIndex.TacticStats: the cards' coverage has the same double-rounding difference as `Numbers.RoundPercent`.
- Overview.IntendedPercent: the same double-rounding difference as `Numbers.RoundPercent`.
- Python's `round(..., 1)` display of the Streamlit percentages is left out, and their ratios are reals.
- Overview.CoveragePercent: requires `unique_techniques > 0`, because the source divides without a guard and shows NaN then. Its value has the same double-rounding difference as `Numbers.RoundPercent`.
- GroupsView.UsageRate: the NaN of an empty technique table is modelled as `None`. Its value has the same double-rounding difference as `Numbers.RoundPercent`.
- Stix.AttackId: `util_config` is not part of this model. Its `NOT_FOUND` is taken to be -1, the value `find_index_id` returns, so a reference at index 0 is not mistaken for "not found".
- GroupsBuild.ProcessGroupsData: sources whose domain map lacks a parent technique id are excluded by `WellFormed`. There the source raises `KeyError`, which the model does not follow. The total `GroupResult` gives `MissingDomain` so that the relational specification stays total.
- GroupsBuild.ProcessSingleGroup: `WellFormed` is required for the same reason.
- TechniqueUsed.TechniqueUsedHelper: `ParentsHaveDomains` is required for the same reason. It also branches on the corrected `IsSubTid`, as `UseTechnique` below does.
- TechniqueUsed.LocalId: branches on the corrected `Stix.IsSubTid`, not on `is_sub_tid` as written. On an id such as "T1055x001" the source takes the sub-technique branch and `get_sub_technique_id` raises `IndexError`; the model keeps the id whole instead. `Stix.SubTidBranches` shows that the two tests differ only on such ids, and `Stix.SubTidAnySeparator` gives one. The `IndexError` path is not followed.
- TechniqueUsed.TechniqueData: uses `LocalId`, so on an id such as "T1055x001" in the domain map it builds a row with the whole id where the source raises `IndexError`.
- TechniqueUsed.UseTechnique: branches on the corrected `IsSubTid`, so on an id such as "T1055x001" it files a top-level row where the source raises `IndexError`.
- GroupsBuild.TechRefSplits: `TechRefOf` branches on the corrected `IsSubTid`, so on an id such as "T1055x001" it gives a whole-id entry where `groups.py` raises `IndexError` at `get_sub_technique_id`.
- GroupsBuild.GetTechRef: the same corrected sub-id test as `TechRefOf`.
- ATT&CK ids are strings, so a `None` id concatenated into a key is not modelled.
- The summary sort is modelled as a stable sort. pandas' `sort_values` (streamlit/streamlit_dashboard.py:909) defaults to quicksort, which is not stable, so techniques with equal counts may come out in another order. MatrixViews.SummaryTable and MatrixViews.SummaryTableSorted state only a permutation in non-increasing order, so no contract depends on how ties are ordered.
- Only ASCII letters are lower-cased. JavaScript's and Python's Unicode case maps are not modelled.
- Strings.IsSpace: counts only space, tab, line feed, carriage return, vertical tab and form feed as white space, for JavaScript's `trim()` and Python's `strip()` and `split()` alike. Python also strips and splits on the ASCII separators \x1c–\x1f and on \x85, and both languages on Unicode spaces such as U+00A0; none of these is modelled.

## Findings

| source | as written | input that shows it | evidently intended | confidence | as-written member | corrected member |
|---|---|---|---|---|---|---|
| echo-attack-dashboard/src/components/overview-dashboard.tsx:198 | the coverage chart and card compare `used_main_techniques`, a count of used rows over every group, with `unique_techniques`, a count of distinct ids | two groups each using technique T1055: used 2, unique 1, an "unused" slice of -1 and a card of 200% | compare the distinct used ids with the distinct ids, giving non-negative slices and at most 100% | not executed | Overview.CoverageOverflow, Overview.CoverageOverflowExample | Overview.IntendedSlices, Overview.IntendedPercent |
| get_mitre_data/util/buildhelpers.py:131-133 | the '.' of the `is_sub_tid` pattern is not escaped, so any character but a newline is accepted as the separator | "T1055x001" passes `is_sub_tid`, and `get_sub_technique_id` then raises `IndexError` on it | accept only "T", four digits, '.', three digits | not executed | Stix.SubTidAnySeparator, Stix.SubTidWithoutDot | Stix.SubTidSplits |
