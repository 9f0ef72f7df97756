# Jira sprint dashboard: a Dafny model

The dashboard shows a company's Jira boards as squads. For each squad it shows the active sprint, story points by status, blockers, alerts and the people doing the work. This project models the deterministic core of the system's three parts and proves properties of that model:

- **The proxy backend** (`proxy-server/src`):
  - a TTL cache;
  - configuration loading and validation;
  - the Jira client's paging loops, board de-duplication, sprint selection and 429 retry policy;
  - the normalisation rules that map Jira's free-text fields onto the dashboard's vocabulary;
  - the aggregation of boards, sprints and issues into one dashboard record;
  - the HTTP route with its cache-or-compute flow and error ladder.
- **The older serverless function** (`supabase/functions/jira-data/index.ts`): its own rules, paging break conditions and per-board fold. These differ from the proxy's and are kept in separate modules.
- **The browser's list logic**:
  - the task and squad filters and option lists of the dashboard page;
  - the task table's search, sort, pages, sort toggle and CSV text;
  - the advanced-filter toggles;
  - the squad panel's sprint matching and story-point distribution;
  - the velocity-history merge, the work-item age ordering and colours, and the capacity rows.

Jira's answers are data. A paging loop reads a sequence of page-or-error answers, where element i answers request i. The aggregator reads a `Remote` value with the board listing and, for each board, its sprint, issue, sprint-list and history answers. The clock is a `now` parameter. Operations that update state in place are imperative Dafny:

- the cache is a `class` over a `map`;
- the paging loops, the per-board and per-issue folds, the sprint collection and the option collection are `method`s with loops;
- the task table's controls are a `class` whose methods update its fields.

Each of these methods is proved equal to a specification function, and the properties are stated as lemmas about that function. Rules that are pure expressions in the source are functions.

The modules follow the source files:

| module | models |
|---|---|
| `Wrappers`, `Strings`, `Sorting`, `Lists` | Option/Result; JavaScript string operations (`toLowerCase`, `trim`, `includes`, `split`, `join`, `parseInt`, `new Set`); `Array.prototype.sort`; `filter`, `map` |
| `JiraTypes`, `DashboardTypes` | the records of `proxy-server/src/types.ts` and `src/types/dashboard.ts` the logic reads |
| `TtlCache` | `proxy-server/src/cache.ts` |
| `Config` | `proxy-server/src/config.ts` |
| `JiraClient`, `JiraClientCases` | `proxy-server/src/jira-client.ts` and its test suite |
| `Normalize`, `NormalizeCases`, `SquadNameCases`, `IssueCases` | the normalisers of `proxy-server/src/data-aggregator.ts` and their test cases |
| `SquadFold`, `Aggregator` | the per-board fold and the orchestration of `data-aggregator.ts` |
| `Routes` | `proxy-server/src/routes/jira-data.ts` |
| `LegacyRules`, `LegacyCases`, `LegacyPaging`, `LegacyHandler` | `supabase/functions/jira-data/index.ts` |
| `DashboardPage`, `Filters`, `TaskTable`, `SquadPanel`, `VelocityChart`, `WorkItemAge`, `CapacityChart` | `src/pages/Index.tsx` and the dashboard components |

JavaScript semantics are written out where they matter:

- truthiness of `||` chains;
- `Set` insertion order;
- `Math.round((a / b) * 100)`, computed by the source in floating point, as the exact ratio rounded half up, `(200a + b) div 2b` for `a >= 0`, `b > 0` (the difference is listed under "Left out");
- `parseInt` with a NaN result;
- a NaN cache lifetime that never expires;
- the comparator semantics of `sort`.

## Model

| member | source | states |
|---|---|---|
| `Strings.ToLowerHasNoUpper` | proxy-server/src/data-aggregator.ts:145 | a lower-cased name holds no upper-case letter |
| `Strings.ContainsAt` | proxy-server/src/data-aggregator.ts:149 | `includes` holds when the keyword occurs at some position |
| `Strings.NotContains` | proxy-server/src/data-aggregator.ts:149 | `includes` fails when the keyword holds a character the name lacks |
| `Strings.NotContainsOutside` | proxy-server/src/data-aggregator.ts:149 | `includes` fails when the keyword holds a character outside the name's alphabet |
| `Strings.NotContainsPair` | proxy-server/src/data-aggregator.ts:168-169 | `includes` fails when the keyword holds two adjacent characters that never occur side by side in the name |
| `Strings.ContainsInfix` | proxy-server/src/data-aggregator.ts:600 | a string includes every string it is built around |
| `Strings.TrimStart` | proxy-server/src/data-aggregator.ts:290 | leading whitespace removed: a suffix, whitespace before it, no whitespace at its start |
| `Strings.TrimEnd` | proxy-server/src/data-aggregator.ts:291 | trailing whitespace removed: a prefix, whitespace after it, no whitespace at its end |
| `Strings.TrimIsInfix` | proxy-server/src/data-aggregator.ts:286 | `trim` returns an infix of the string with only whitespace cut from either side |
| `Strings.TrimEnds` | proxy-server/src/data-aggregator.ts:286 | a trimmed string has no whitespace at either end |
| `Strings.TrimEmptyIffAllSpace` | proxy-server/src/data-aggregator.ts:215 | `trim()` is empty exactly when the string is whitespace only |
| `Strings.TrimOfTrimmed` | proxy-server/src/data-aggregator.ts:218 | trimming a string without outer whitespace changes nothing |
| `Strings.IndexOf` | proxy-server/src/data-aggregator.ts:429 | the position of the first occurrence of a character, or the length when there is none |
| `Strings.Split` | proxy-server/src/config.ts:98 | `split` on one character gives at least one piece, none holding the separator |
| `Strings.JoinSplit` | proxy-server/src/config.ts:98 | splitting on a character and joining with it restores the string |
| `Strings.SplitJoin` | proxy-server/src/data-aggregator.ts:346 | joining separator-free pieces and splitting again gives the pieces back |
| `Strings.IndexOfFirst` | proxy-server/src/data-aggregator.ts:429 | a character found with none like it before is the one `split` stops at |
| `Strings.BeforeFirst` | proxy-server/src/data-aggregator.ts:429 | `split(c)[0]` is everything before the first `c` |
| `Strings.BeforeFirstIsPrefix` | proxy-server/src/data-aggregator.ts:429 | the first piece of a split is a prefix without the separator, followed by the separator when it is shorter |
| `Strings.NatToString` | proxy-server/src/data-aggregator.ts:527 | the decimal text of a number is non-empty and made of digits |
| `Strings.LeadingDigits` | proxy-server/src/config.ts:91-92 | the run of digits `parseInt` reads: a prefix of digits followed by no digit |
| `Strings.ParseInt` | proxy-server/src/config.ts:91-92 | `parseInt` gives NaN exactly when no digit follows the leading whitespace and sign |
| `Strings.DigitsValueOfNatToString` | proxy-server/src/config.ts:91-92 | reading the decimal text of a number gives the number |
| `Strings.LeadingDigitsOfDigits` | proxy-server/src/config.ts:91-92 | a string made of digits is read whole |
| `Strings.ParseIntNatToString` | proxy-server/src/config.ts:91-92 | `parseInt(String(n))` gives back `n` |
| `Strings.LexLeTotal` | proxy-server/src/data-aggregator.ts:869-870 | the order `sort()` uses relates any two strings |
| `Strings.LexLeTransitive` | proxy-server/src/data-aggregator.ts:869-870 | the order `sort()` uses is transitive |
| `Strings.LexLeAntisymmetric` | proxy-server/src/data-aggregator.ts:869-870 | two strings that sort no later than each other are equal |
| `Strings.LexLeReflexive` | proxy-server/src/data-aggregator.ts:869-870 | every string sorts no later than itself |
| `Strings.Distinct` | proxy-server/src/data-aggregator.ts:479 | `Array.from(new Set(xs))` holds exactly the values of `xs`, each once |
| `Strings.FirstIndex` | proxy-server/src/data-aggregator.ts:479 | the first position of a value in a sequence |
| `Strings.DistinctFirstOccurrenceOrder` | proxy-server/src/data-aggregator.ts:479 | a Set lists its values in the order they were first added |
| `Strings.FirstIndexOfPrefix` | proxy-server/src/data-aggregator.ts:479 | a value present before the last position keeps its first position when one element is appended |
| `Strings.FirstIndexOfPrefixFree` | proxy-server/src/data-aggregator.ts:479 | a value first seen at the last position has that position as its first |
| `Strings.FirstIndexUnique` | proxy-server/src/data-aggregator.ts:479 | the first position of a value is the one with no earlier occurrence |
| `Sorting.Insert` | proxy-server/src/data-aggregator.ts:439 | one insertion step of the sort keeps every element: the result is the input plus the inserted value, as multisets |
| `Sorting.Sort` | proxy-server/src/data-aggregator.ts:439 | the sort returns a permutation of its input |
| `Sorting.InsertSorted` | proxy-server/src/data-aggregator.ts:439 | under a total preorder, inserting into a sorted sequence keeps it sorted |
| `Sorting.SortSorted` | proxy-server/src/data-aggregator.ts:439-443 | under a total preorder, the sort yields an ordered sequence |
| `Sorting.InsertKeepsKeysDistinct` | proxy-server/src/data-aggregator.ts:439 | inserting an element with a new key keeps keys distinct |
| `Sorting.SortKeepsKeysDistinct` | proxy-server/src/data-aggregator.ts:439 | sorting never makes two elements share a key |
| `Sorting.SortedDistinct` | src/pages/Index.tsx:75-79 | `Array.from(new Set(xs)).sort()` holds exactly the values of `xs`, each once, in ascending order |
| `Sorting.SortStrings` | proxy-server/src/data-aggregator.ts:869-870 | sorting strings by the default order yields an ascending sequence |
| `Lists.Filter` | src/pages/Index.tsx:88-96 | `filter` never lengthens the list |
| `Lists.FilterConcat` | src/components/dashboard/AdvancedFilters.tsx:31-33 | filtering distributes over concatenation, so a value appended to the selection is filtered on its own |
| `Lists.FilterAll` | src/components/dashboard/AdvancedFilters.tsx:32 | a filter that keeps every element returns the list unchanged |
| `Lists.FilterOne` | src/components/dashboard/AdvancedFilters.tsx:32 | a one-element list is kept or emptied |
| `Lists.FilterMembers` | src/pages/Index.tsx:88-96 | `filter` keeps exactly the elements that pass the test |
| `Lists.FilterTwice` | src/components/dashboard/TaskTable.tsx:42-49 | filtering the result of one filter by a second test is filtering once by both tests |
| `Lists.Map` | proxy-server/src/data-aggregator.ts:736 | `map` gives one value per element, in order |
| `Lists.MapStep` | proxy-server/src/data-aggregator.ts:635 | mapping one more element appends its image, as a loop's push does |
| `Lists.MapMembers` | src/pages/Index.tsx:75 | a value is in the mapped list exactly when some element maps to it |
| `Lists.Count` | src/pages/Index.tsx:43 | the number of elements that pass a test is at most the length |
| `Lists.CountBounds` | src/pages/Index.tsx:43 | no element counted exactly when none passes, all exactly when all pass |
| `TtlCache.Cache.constructor` | proxy-server/src/cache.ts:21-23 | a new cache holds no entries |
| `TtlCache.Cache.Get` | proxy-server/src/cache.ts:30-48 | returns the value of a present entry whose age is at most ttl·1000 ms; an absent key returns nothing; an expired entry returns nothing and is deleted, and only that entry |
| `TtlCache.Cache.Set` | proxy-server/src/cache.ts:56-64 | the key now holds the value stamped with the current time and the given ttl, 120 seconds when none is given; every other key is unchanged |
| `TtlCache.DefaultTtlWindow` | proxy-server/src/cache.ts:54-56 | a value stored with the default ttl is read back exactly while at most 120000 ms have passed |
| `TtlCache.DefaultTtlCase` | proxy-server/src/__tests__/cache.test.ts:52-58 | `set` without a ttl, then `get` at 120000 ms is a hit with the value and at 120001 ms a miss |
| `TtlCache.Cache.Invalidate` | proxy-server/src/cache.ts:70-72 | the key is removed and nothing else |
| `TtlCache.Cache.Clear` | proxy-server/src/cache.ts:77-79 | the cache is empty |
| `TtlCache.LookupAbsent` | proxy-server/src/cache.ts:31-35 | a key never set misses and the lookup changes nothing |
| `TtlCache.LookupAfterPut` | proxy-server/src/cache.ts:39-47 | a value stored at t0 is returned at any time up to t0 + ttl·1000 ms, the bound included, and the hit leaves the cache as it was; a NaN ttl never expires |
| `TtlCache.LookupAfterPutExpired` | proxy-server/src/cache.ts:39-45 | past its ttl the stored value misses, and the store loses exactly that key |
| `TtlCache.AfterLookupKeepsOthers` | proxy-server/src/cache.ts:41-44 | an expiring get deletes only the entry under its own key |
| `TtlCache.HitKeepsStore` | proxy-server/src/cache.ts:47 | a get that returns a value leaves the store unchanged |
| `TtlCache.PutReplaces` | proxy-server/src/cache.ts:56-64 | a second set on the same key overwrites value, timestamp and ttl, as if the first had not happened |
| `TtlCache.PutKeepsOthers` | proxy-server/src/cache.ts:63 | a set under one key is invisible under every other key |
| `TtlCache.InvalidateOnly` | proxy-server/src/cache.ts:70-72 | after invalidate the key misses, every other key answers as before, and invalidating an absent key changes nothing |
| `Config.IsValidEmailMatchesPattern` | proxy-server/src/config.ts:22-25 | the email validator accepts exactly the strings matching `^[^\s@]+@[^\s@]+\.[^\s@]+$`: three non-empty runs free of whitespace and '@', joined by '@' and '.' |
| `Config.ValidEmailMatches` | proxy-server/src/config.ts:22-25 | every accepted email matches the regular expression |
| `Config.MatchingEmailValid` | proxy-server/src/config.ts:22-25 | every string matching the regular expression is accepted |
| `Config.IsValidDomain` | proxy-server/src/config.ts:30-42 | a domain is valid exactly when it is not blank (empty or whitespace only) and does not contain "://" |
| `Config.Unset` | proxy-server/src/config.ts:58 | a required variable is rejected exactly when it is unset, empty or whitespace only |
| `Config.ValueOr` | proxy-server/src/config.ts:91-92 | `process.env[name] \|\| fallback`: the value when set and non-empty, else the fallback |
| `Config.FirstMissing` | proxy-server/src/config.ts:50-63 | nothing is reported exactly when all required variables are present; otherwise the reported name is a required variable that is not present and every one before it in checking order is present |
| `Config.TrimAll` | proxy-server/src/config.ts:99 | one trimmed piece per piece, in order |
| `Config.NonEmpty` | proxy-server/src/config.ts:99 | keeps only non-empty pieces, and keeps every one of them |
| `Config.ProjectKeysTidy` | proxy-server/src/config.ts:98-100 | every parsed project key is non-empty, contains no comma and has no surrounding whitespace |
| `Config.ProjectKeysContents` | proxy-server/src/config.ts:98-100 | a string is a parsed key exactly when it is non-empty and is the trim of some comma-separated piece |
| `Config.ProjectKeysRoundTrip` | proxy-server/src/config.ts:98-100 | joining tidy keys with commas and parsing the result gives the same keys back, the empty list included |
| `Config.CommasOnlyGiveEmptyList` | proxy-server/src/config.ts:98-100 | a value made of separators only (",,") parses to an empty key list, not to an absent one |
| `Config.CheckRequired` | proxy-server/src/config.ts:57-63 | the loop over JIRA_DOMAIN, JIRA_EMAIL, JIRA_API_TOKEN returns the first one that is unset or blank, or nothing |
| `Config.LoadConfig` | proxy-server/src/config.ts:48-115 | the result is the configuration the environment determines; the source's throws are `Err` values |
| `Config.MissingReportedFirst` | proxy-server/src/config.ts:57-63 | the first missing required variable is the error, before any format check |
| `Config.EmailBeforeDomain` | proxy-server/src/config.ts:70-81 | with the variables present, a bad email is reported whatever the domain; a good email with a bad domain reports the domain |
| `Config.EmptyTokenUnreachable` | proxy-server/src/config.ts:84-88 | the empty-token error is never produced: a blank token is already reported as missing |
| `Config.ConfigOkIff` | proxy-server/src/config.ts:48-115 | loading succeeds exactly when the three variables are present and both formats are valid, and then yields the record of the given values and defaults |
| `Config.BuildDefaults` | proxy-server/src/config.ts:91-100 | an unset or empty PORT gives 3001 and CACHE_TTL gives 120; the environment is production exactly for NODE_ENV "production"; the key list is absent exactly when JIRA_PROJECT_KEYS is unset or empty |
| `Config.AllPresentIff` | proxy-server/src/config.ts:50-63 | no variable is reported missing exactly when the domain, the email and the token are all set and non-blank |
| `Normalize.FirstTruthy` | proxy-server/src/data-aggregator.ts:137 | a chain of `||` over optional numbers is 0 exactly when no candidate is truthy, and otherwise the value of the first truthy candidate |
| `Normalize.StoryPointsFallThrough` | proxy-server/src/data-aggregator.ts:135-138 | story points come from story_points, then customfield_10028, then customfield_10016, a zero or missing field falling through to the next, and are 0 when none is set |
| `Normalize.MapStatusOfNothing` | proxy-server/src/data-aggregator.ts:144-193 | a missing or empty status name maps to To Do |
| `Normalize.MapStatusIgnoresCase` | proxy-server/src/data-aggregator.ts:145 | the status category depends on the name only up to letter case |
| `Normalize.MapStatusPrecedence` | proxy-server/src/data-aggregator.ts:148-188 | a done keyword decides Done whatever else the name holds; an in-progress keyword gives Done or In Progress; a name mapped to In Review holds no in-progress keyword |
| `Normalize.MapPriorityOfNothing` | proxy-server/src/data-aggregator.ts:199-206 | a missing or empty priority name maps to Medium |
| `Normalize.BlockerIsHigh` | proxy-server/src/data-aggregator.ts:200-202 | a priority name containing "blocker" in any case maps to High |
| `Normalize.OriginalIssueType` | proxy-server/src/data-aggregator.ts:213-219 | a missing or whitespace-only type name gives "Unknown", any other the trimmed name; the result is never empty and has no outer whitespace |
| `Normalize.DetermineHealth` | proxy-server/src/data-aggregator.ts:224-247 | without issues the squad is yellow; it is green exactly when it has issues, no blockers and at least 70 % completion, red exactly when it has issues and two or more blockers or under 40 % completion |
| `Normalize.DetermineHealthCases` | proxy-server/src/data-aggregator.ts:224-247 | the health for the combinations of completion and blockers the rules distinguish, with the blocker rule beating the completion rule |
| `Normalize.LeadingLowers` | proxy-server/src/data-aggregator.ts:323 | the run of lower-case letters at the start of a string, i.e. the `[a-z]+` of the formatted-name pattern: it is a prefix and the next character is not a lower-case letter |
| `Normalize.FormatSquadNameShape` | proxy-server/src/data-aggregator.ts:283-335 | the readable squad name is empty exactly for a non-empty whitespace-only board name, and never starts or ends with whitespace |
| `Normalize.CleanNameShape` | proxy-server/src/data-aggregator.ts:289-292 | removing a leading and a trailing qualifier and trimming keeps a name tidy, and empties it only when it was empty |
| `Normalize.ExpandNameShape` | proxy-server/src/data-aggregator.ts:317-334 | the table lookup, the formatted-name check, the short-code rule and the fallback all give a tidy name, empty only for an empty input |
| `Normalize.ExpandUnlistedShape` | proxy-server/src/data-aggregator.ts:323-334 | the rules after the table lookup give a tidy name, empty only for an empty input |
| `Normalize.KeyMappingsTrimmed` | proxy-server/src/data-aggregator.ts:295-314 | every expansion in the key table is non-empty and has no outer whitespace |
| `Normalize.CleanedNonEmpty` | proxy-server/src/data-aggregator.ts:289-292 | stripping qualifiers from a non-empty trimmed name never empties it |
| `NormalizeCases.StatusNameRoundTrip` | proxy-server/src/data-aggregator.ts:144-193 | mapping a status category's display name back gives the same category |
| `NormalizeCases.PriorityNameRoundTrip` | proxy-server/src/data-aggregator.ts:198-207 | mapping a priority's display name back gives the same priority |
| `NormalizeCases.StatusOfDone` | proxy-server/src/__tests__/data-aggregator.test.ts:94 | the test case: this status name maps to Done |
| `NormalizeCases.StatusOfClosed` | proxy-server/src/__tests__/data-aggregator.test.ts:95 | the test case: this status name maps to Done |
| `NormalizeCases.StatusOfResolved` | proxy-server/src/__tests__/data-aggregator.test.ts:96 | the test case: this status name maps to Done |
| `NormalizeCases.StatusOfInProgress` | proxy-server/src/__tests__/data-aggregator.test.ts:100 | the test case: this status name maps to In Progress |
| `NormalizeCases.StatusOfInDevelopment` | proxy-server/src/__tests__/data-aggregator.test.ts:101 | the test case: this status name maps to In Progress |
| `NormalizeCases.StatusOfCoding` | proxy-server/src/__tests__/data-aggregator.test.ts:102 | the test case: this status name maps to In Progress |
| `NormalizeCases.StatusOfInReview` | proxy-server/src/__tests__/data-aggregator.test.ts:106 | the test case: this status name maps to In Review |
| `NormalizeCases.StatusOfQA` | proxy-server/src/__tests__/data-aggregator.test.ts:107 | the test case: this status name maps to In Review |
| `NormalizeCases.StatusOfTesting` | proxy-server/src/__tests__/data-aggregator.test.ts:108 | the test case: this status name maps to In Review |
| `NormalizeCases.StatusOfToDo` | proxy-server/src/__tests__/data-aggregator.test.ts:112 | the test case: this status name maps to To Do |
| `NormalizeCases.StatusOfBacklog` | proxy-server/src/__tests__/data-aggregator.test.ts:113 | the test case: this status name maps to To Do |
| `NormalizeCases.StatusOfEmDesenvolvimentoPendente` | proxy-server/src/data-aggregator.ts:162-169 | "em desenvolvimento pendente" is In Progress: the unguarded keyword wins over "pendente" |
| `NormalizeCases.StatusOfDevPendente` | proxy-server/src/data-aggregator.ts:168-192 | "dev pendente" is To Do: "pendente" switches off the guarded "dev" keyword |
| `NormalizeCases.PriorityOfHigh` | proxy-server/src/__tests__/data-aggregator.test.ts:119 | the test case: this priority name maps to High |
| `NormalizeCases.PriorityOfCritical` | proxy-server/src/__tests__/data-aggregator.test.ts:120 | the test case: this priority name maps to High |
| `NormalizeCases.PriorityOfBlocker` | proxy-server/src/__tests__/data-aggregator.test.ts:121 | the test case: this priority name maps to High |
| `NormalizeCases.PriorityOfLow` | proxy-server/src/__tests__/data-aggregator.test.ts:125 | the test case: this priority name maps to Low |
| `NormalizeCases.PriorityOfTrivial` | proxy-server/src/__tests__/data-aggregator.test.ts:126 | the test case: this priority name maps to Low |
| `NormalizeCases.PriorityOfMedium` | proxy-server/src/__tests__/data-aggregator.test.ts:130 | the test case: this priority name maps to Medium |
| `IssueCases.TidyTypeKept` | proxy-server/src/data-aggregator.ts:213-219 | a non-empty type name without outer whitespace is kept as it is |
| `IssueCases.BlankTypeUnknown` | proxy-server/src/data-aggregator.ts:215-217 | a whitespace-only type name is "Unknown" |
| `IssueCases.BugKept` | proxy-server/src/__tests__/data-aggregator.test.ts:138 | the test case: the type name Bug is preserved |
| `IssueCases.StoryKept` | proxy-server/src/__tests__/data-aggregator.test.ts:142 | the test case: the type name Story is preserved |
| `IssueCases.TaskKept` | proxy-server/src/__tests__/data-aggregator.test.ts:146 | the test case: the type name Task is preserved |
| `IssueCases.EpicKept` | proxy-server/src/__tests__/data-aggregator.test.ts:150 | the test case: the type name Epic is preserved |
| `IssueCases.EmptyAndBlankUnknown` | proxy-server/src/__tests__/data-aggregator.test.ts:153-156 | the test cases: the empty and a blank type name are "Unknown" |
| `IssueCases.StoryPointsCases` | proxy-server/src/__tests__/data-aggregator.test.ts:46-90 | the test cases: 5 from story_points, 3 from customfield_10028, 0 when no field is set |
| `SquadNameCases.FormatTidy` | proxy-server/src/data-aggregator.ts:283-292 | a non-empty board name without outer whitespace goes straight to cleaning and expansion |
| `SquadNameCases.ShortUnqualified` | proxy-server/src/data-aggregator.ts:290-291 | a name of at most five characters carries no qualifier to strip |
| `SquadNameCases.StripQuadroKey` | proxy-server/src/data-aggregator.ts:290 | "quadro", a space and a key lose the prefix and the space |
| `SquadNameCases.StripSquadPrefix` | proxy-server/src/data-aggregator.ts:290 | "Squad", a space and a rest lose the prefix and the space |
| `SquadNameCases.StripBoardSuffix` | proxy-server/src/data-aggregator.ts:291 | a code, a space and "board" lose the suffix and the space |
| `SquadNameCases.LooksFormattedSquad` | proxy-server/src/data-aggregator.ts:323 | "Squad", a space, a lower-case word, a space and a capitalised rest match the formatted-name pattern |
| `SquadNameCases.ExpandListed` | proxy-server/src/data-aggregator.ts:317-320 | a cleaned name whose upper-case form is a table key gives the table's value |
| `SquadNameCases.ExpandFormatted` | proxy-server/src/data-aggregator.ts:322-325 | a name outside the table that already looks formatted is kept |
| `SquadNameCases.ExpandShortCode` | proxy-server/src/data-aggregator.ts:327-331 | an unknown code of two to five capitals becomes "Squad" and the code |
| `SquadNameCases.FormatQuadroGH` | proxy-server/src/__tests__/data-aggregator.test.ts:9-11 | the test case: this board name is shown as "Growth Hacking" |
| `SquadNameCases.FormatQuadroLDC` | proxy-server/src/__tests__/data-aggregator.test.ts:13-15 | the test case: "quadro LDC" is shown as the table's "Lideranças do CEO" (the test text spells it mis-encoded) |
| `SquadNameCases.FormatSCCBoard` | proxy-server/src/__tests__/data-aggregator.test.ts:17-19 | the test case: this board name is shown as "Squad CW Cast/CW Class" |
| `SquadNameCases.FormatQuadroAO` | proxy-server/src/__tests__/data-aggregator.test.ts:21-23 | the test case: this board name is shown as "Agile Onboarding" |
| `SquadNameCases.FormatCONT` | proxy-server/src/__tests__/data-aggregator.test.ts:25-27 | the test case: this board name is shown as "Squad de Content" |
| `SquadNameCases.FormatGWT` | proxy-server/src/__tests__/data-aggregator.test.ts:29-31 | the test case: this board name is shown as "Squad de Growth" |
| `SquadNameCases.FormatCHN` | proxy-server/src/__tests__/data-aggregator.test.ts:33-35 | the test case: this board name is shown as "Squad de Channel" |
| `SquadNameCases.FormatSquadDeContent` | proxy-server/src/__tests__/data-aggregator.test.ts:5-7 | the test case: this board name is shown as "Squad de Content" |
| `SquadNameCases.FormatXYZ` | proxy-server/src/__tests__/data-aggregator.test.ts:41-43 | the test case: this board name is shown as "Squad XYZ" |
| `SquadNameCases.FormatEmpty` | proxy-server/src/__tests__/data-aggregator.test.ts:37-39 | the test case: this board name is shown as "Unknown Squad" |
| `SquadFold.SpOrOne` | proxy-server/src/data-aggregator.ts:586 | an issue counts at least 1 in the task distribution, and exactly its story points when it has some |
| `SquadFold.AssigneeOf` | proxy-server/src/data-aggregator.ts:578 | the assignee name is never empty: a missing or empty display name is "Unassigned" |
| `SquadFold.BucketsOf` | proxy-server/src/data-aggregator.ts:588-595 | one issue's units land in exactly one bucket: Done, In Progress/In Review, or to do |
| `SquadFold.TallySums` | proxy-server/src/data-aggregator.ts:575-603 | the squad's story points are the sum over its issues, done points the sum over its Done issues, the three buckets together hold every issue's units, and the blocker count is the number of not-Done issues with a blocker priority or a flag |
| `SquadFold.PrioritiesCoverTotal` | proxy-server/src/data-aggregator.ts:617-620 | the story points per high, medium and low priority add up to the squad's total, as every issue maps to exactly one priority |
| `SquadFold.CompletedWithinTotal` | proxy-server/src/data-aggregator.ts:583-601 | completed points never exceed the total, done units never exceed all units, and blockers never exceed the number of issues |
| `SquadFold.AddToPerson` | proxy-server/src/data-aggregator.ts:606-615 | `personMap[assignee]` afterwards is what it held (zero for a new name) plus exactly the units, and every other name reads as before |
| `SquadFold.EntryOfListed` | proxy-server/src/data-aggregator.ts:606-608 | a name has an entry exactly when it is in the person list |
| `SquadFold.NameAt` | proxy-server/src/data-aggregator.ts:736-739 | the name list holds each entry's own name in its place |
| `SquadFold.EntryOfAt` | proxy-server/src/data-aggregator.ts:736-739 | with distinct names, looking up an entry's name finds that entry's buckets |
| `SquadFold.Names` | proxy-server/src/data-aggregator.ts:736-739 | the person list has one name per entry |
| `SquadFold.AddToPersonSum` | proxy-server/src/data-aggregator.ts:606-615 | adding units for an assignee adds exactly those units to the sum over all persons |
| `SquadFold.AddToPersonNames` | proxy-server/src/data-aggregator.ts:606-615 | adding units for a known assignee keeps the name list; for a new one it appends the name |
| `SquadFold.AddToPersonDistinct` | proxy-server/src/data-aggregator.ts:606-615 | the per-person names stay free of duplicates |
| `SquadFold.PersonsSumToSquad` | proxy-server/src/data-aggregator.ts:605-615 | the per-person distribution sums to the squad's task distribution; its names are the issues' distinct assignees in first-seen order, so every assignee has exactly one entry; each entry holds the units of exactly that person's issues (with lines 736-739) |
| `SquadFold.AssignedTo` | proxy-server/src/data-aggregator.ts:605-606 | the issues credited to a name all have that assignee |
| `SquadFold.AssignedToIsFilter` | proxy-server/src/data-aggregator.ts:605-606 | a person's issues are the issues filtered by that assignee, in order |
| `SquadFold.AssignedToNone` | proxy-server/src/data-aggregator.ts:605-608 | a name that no issue carries is credited with no issue |
| `SquadFold.PersonsByNames` | proxy-server/src/data-aggregator.ts:605-608 | the fold's names are the distinct assignees in the order of their first issue |
| `SquadFold.AddToPersonOwnSums` | proxy-server/src/data-aggregator.ts:605-615 | crediting one more issue to its assignee keeps every listed person's entry equal to the sum over that person's issues |
| `SquadFold.PersonsByListsAll` | proxy-server/src/data-aggregator.ts:605-608 | every issue's assignee has an entry |
| `SquadFold.PersonsByOwnIssues` | proxy-server/src/data-aggregator.ts:605-615 | every listed person's entry holds the sum of the units of exactly that person's issues |
| `SquadFold.PersonsOfBy` | proxy-server/src/data-aggregator.ts:605-615 | the proxy's person fold credits each issue with its status bucket of `spOrOne` |
| `SquadFold.TasksOf` | proxy-server/src/data-aggregator.ts:622-635 | one task item per issue, in the order of the issues |
| `SquadFold.FoldStep` | proxy-server/src/data-aggregator.ts:575-651 | one more issue adds its own counters to the tally and its units to its assignee |
| `SquadFold.FoldIssues` | proxy-server/src/data-aggregator.ts:575-651 | the loop over the sprint's issues computes the tally, the person distribution and the task list the reference functions define |
| `SquadFold.RoundPct` | proxy-server/src/data-aggregator.ts:674-676 | the rounded percentage of a part within a whole is at most 100, 0 for no part and 100 for all of it |
| `SquadFold.CompletionPct` | proxy-server/src/data-aggregator.ts:672-677 | the completion percentage, by points when any are estimated, else by task units, else 0, is never above 100 |
| `SquadFold.SquadOf` | proxy-server/src/data-aggregator.ts:700-717 | the squad record's id is "board-" and the board id, its name the readable board name, its points the sums over its issues, its distribution the tally's, its completion at most 100, and its health follows from completion, blockers and whether there were issues (with line 679) |
| `SquadFold.AlertOf` | proxy-server/src/data-aggregator.ts:681-690 | a squad raises an alert exactly when it has blockers; the alert is critical exactly from three blockers on and reports the to-do and in-progress units as affected |
| `Aggregator.UnfilteredKeyIsOwn` | proxy-server/src/data-aggregator.ts:346 | the cache key of the unfiltered board list differs from every filtered one |
| `Aggregator.FilteredKeysDistinct` | proxy-server/src/data-aggregator.ts:346 | two comma-free, non-empty project-key lists share a cache key only when they are the same list |
| `Aggregator.SprintOrNull` | proxy-server/src/data-aggregator.ts:365-372 | a board's sprint is null exactly when the lookup failed or found no active sprint, and otherwise the first active sprint |
| `Aggregator.ConfigsOf` | proxy-server/src/data-aggregator.ts:364-375 | one configuration per board, in board order, each with that board's sprint or null |
| `Aggregator.BoardsOutcome` | proxy-server/src/data-aggregator.ts:354-375 | a listing error is passed on, an empty listing is the "No boards found" error, otherwise there is one configuration per listed board |
| `Aggregator.BoardsRunCases` | proxy-server/src/data-aggregator.ts:345-380 | a cached list is returned without touching the cache; otherwise a fetched list is never empty and is cached under its key for 120 seconds, and an empty listing fails and caches nothing |
| `Aggregator.FetchAllBoardsData` | proxy-server/src/data-aggregator.ts:340-381 | the method returns what the run function defines and leaves the cache in the state it defines |
| `Aggregator.FirstSprint` | proxy-server/src/data-aggregator.ts:464-470 | the global sprint is null exactly when no board has a sprint, and otherwise the sprint of the first board that has one |
| `Aggregator.FindGlobalSprint` | proxy-server/src/data-aggregator.ts:464-470 | the loop that stops at the first board with a sprint finds that sprint |
| `Aggregator.GoalEntries` | proxy-server/src/data-aggregator.ts:473-478 | each goal entry starts with the bracketed squad name, and there are none exactly when no active sprint has a goal |
| `Aggregator.CombinedGoalEmpty` | proxy-server/src/data-aggregator.ts:473-479 | the combined goal is empty exactly when no active sprint has a non-empty goal |
| `Aggregator.DatePart` | proxy-server/src/data-aggregator.ts:429-430 | the date of a missing timestamp is empty, otherwise the text before the first 'T', which holds no 'T' |
| `Aggregator.DateOr` | proxy-server/src/data-aggregator.ts:487-488 | a sprint date is the date part of its timestamp or today's date |
| `Aggregator.SprintInfoFor` | proxy-server/src/data-aggregator.ts:482-502 | the sprint header carries the combined goal and the squad totals; without a global sprint it is the "no-active-sprint" placeholder dated today with number 0, otherwise it carries the global sprint's id and name (with lines 752-753) |
| `Aggregator.BoardIssues` | proxy-server/src/data-aggregator.ts:531-572 | a board contributes issues exactly when it has an active sprint and fetching that sprint's issues succeeds, and then the fetched issues |
| `Aggregator.ProcessBoard` | proxy-server/src/data-aggregator.ts:537-717 | the issue loop followed by the squad metrics builds the board's part: squad record, tasks, alert, person list and counters |
| `Aggregator.TotalsStep` | proxy-server/src/data-aggregator.ts:525-746 | a board without issues leaves the accumulators as they are; a processed board adds its part under its squad id |
| `Aggregator.ProcessBoards` | proxy-server/src/data-aggregator.ts:525-749 | the loop over the boards computes the accumulators the fold over boards defines |
| `Aggregator.TotalsAreSquadSums` | proxy-server/src/data-aggregator.ts:731-753 | the sprint's total and completed story points are the sums over the squads |
| `Aggregator.TotalsCompletedWithinTotal` | proxy-server/src/data-aggregator.ts:583-589 | the sprint's completed story points never exceed its total (with lines 732-733) |
| `Aggregator.PartSums` | proxy-server/src/data-aggregator.ts:705 | a board's squad record carries its counters' total and completed points |
| `Aggregator.AddPartSums` | proxy-server/src/data-aggregator.ts:731-733 | adding a board's part keeps the totals equal to the sums over the squads |
| `Aggregator.PriorityStatsCoverTotal` | proxy-server/src/data-aggregator.ts:617-620 | the story points per high, medium and low priority together make up the sprint's total (with line 732) |
| `Aggregator.BoardPartAlert` | proxy-server/src/data-aggregator.ts:681-690 | a board raises an alert exactly when its squad has blockers, and the alert is that squad's |
| `Aggregator.SquadPerProcessedBoard` | proxy-server/src/data-aggregator.ts:531-535 | there is one squad per board that has an active sprint whose issues were fetched (with lines 569-572, 731) |
| `Aggregator.AlertPerBlockedSquad` | proxy-server/src/data-aggregator.ts:681-690 | there is one alert per squad with blockers, and every alert belongs to one of the squads |
| `Aggregator.FirstByIdIds` | proxy-server/src/data-aggregator.ts:422-436 | de-duplicating sprints by id keeps exactly the ids of the input |
| `Aggregator.FirstByIdDistinct` | proxy-server/src/data-aggregator.ts:422-436 | after de-duplication each sprint id occurs once |
| `Aggregator.FirstByIdFirst` | proxy-server/src/data-aggregator.ts:422-436 | every kept sprint is the first in the input with its id |
| `Aggregator.SprintInfoOf` | proxy-server/src/data-aggregator.ts:425-434 | a listed sprint's entry carries the sprint id as its number |
| `Aggregator.Consolidate` | proxy-server/src/data-aggregator.ts:421-436 | the loop with a set of seen ids converts exactly the first sprint of each id, in order |
| `Aggregator.NewerFirstPreorder` | proxy-server/src/data-aggregator.ts:439-443 | the sprint comparator is total and transitive, so sorting by it is well defined |
| `Aggregator.CollectedIdsListed` | proxy-server/src/data-aggregator.ts:421-443 | the collection holds only ids of listed sprints |
| `Aggregator.CollectedIdsAll` | proxy-server/src/data-aggregator.ts:421-443 | the collection holds every listed sprint id |
| `Aggregator.CollectedDistinct` | proxy-server/src/data-aggregator.ts:421-443 | no two collected sprints share an id |
| `Aggregator.CollectedOrder` | proxy-server/src/data-aggregator.ts:438-443 | undated sprints come after dated ones, and dated ones are sorted newest first by their date text |
| `Aggregator.SprintCollectionProperties` | proxy-server/src/data-aggregator.ts:390-451 | the collected ids are pairwise distinct and all listed, the first listing of an id wins, and a board whose listing fails contributes nothing |
| `Aggregator.CollectAllSprints` | proxy-server/src/data-aggregator.ts:390-451 | a cached collection is returned as it is; otherwise the sprints are collected, sorted and cached under "all-sprints-collection" for 1800 seconds |
| `Aggregator.AssigneesOf` | proxy-server/src/data-aggregator.ts:824-829 | the assignee, or "Unassigned", of every history issue, in order |
| `Aggregator.TypesOf` | proxy-server/src/data-aggregator.ts:824-829 | the issue type, or "Unknown", of every history issue, in order |
| `Aggregator.MergeAssociative` | proxy-server/src/data-aggregator.ts:849-852 | merging metadata lists is associative, so merging board by board is merging all at once |
| `Aggregator.MergeNone` | proxy-server/src/data-aggregator.ts:842-852 | empty metadata is neutral in the merge |
| `Aggregator.MetadataRunAt` | proxy-server/src/data-aggregator.ts:811-852 | the metadata of the boards from one on is that board's metadata merged with the rest's, the cache threaded through |
| `Aggregator.FirstBoards` | proxy-server/src/data-aggregator.ts:811 | the history is consulted for the first three boards only, or for all when there are fewer |
| `Aggregator.BoardMetadata` | proxy-server/src/data-aggregator.ts:812-843 | a cached record is used; a fetched history is summarised and cached for 1800 seconds; a failed fetch gives empty lists and caches nothing |
| `Aggregator.HistoryMetadata` | proxy-server/src/data-aggregator.ts:811-846 | the loop over the boards yields the merged metadata and cache state the run function defines |
| `Aggregator.MetadataRunFrame` | proxy-server/src/data-aggregator.ts:813-837 | the metadata run touches no cache key but its boards' metadata keys |
| `Aggregator.Vocabulary` | proxy-server/src/data-aggregator.ts:800-807 | the offered assignees and types are exactly those of the tasks and the histories, sorted and without duplicates (with lines 849-852, 869-870) |
| `Aggregator.TaskAssignees` | proxy-server/src/data-aggregator.ts:804-805 | one assignee per task, in order |
| `Aggregator.TaskTypes` | proxy-server/src/data-aggregator.ts:804-806 | one issue type per task, in order |
| `Aggregator.TasksOffered` | proxy-server/src/data-aggregator.ts:800-807 | every task's assignee and type are among the vocabularies collected |
| `Aggregator.AggregateSquadsData` | proxy-server/src/data-aggregator.ts:456-872 | the method returns the dashboard record and leaves the cache as the reference function defines |
| `Aggregator.DashboardTotals` | proxy-server/src/data-aggregator.ts:617-620 | the header's totals are the sums over the squads, and the priority buckets make up the total (with lines 732-733, 752-753) |
| `Aggregator.DashboardVocabularies` | proxy-server/src/data-aggregator.ts:800-807 | every task's assignee and type is offered as a filter value, and the offered lists are sorted and distinct (with lines 869-870) |
| `JiraClient.ValuesStep` | proxy-server/src/jira-client.ts:179 | one more answered page appends its values to what was collected; an error page adds nothing |
| `JiraClient.FirstStopByLast` | proxy-server/src/jira-client.ts:167-186 | a `while (!isLast)` loop stops at the first answer that is an error or says it is the last page, and at no earlier one |
| `JiraClient.FirstStopAt` | proxy-server/src/jira-client.ts:167-186 | an answer that stops the loop, after none that does, is where the loop stops |
| `JiraClient.FirstStopByTotal` | proxy-server/src/jira-client.ts:231-256 | a do-while loop bounded by `total` stops at the first answer that is an error or after which the next offset reaches the total |
| `JiraClient.FirstStopByTotalAt` | proxy-server/src/jira-client.ts:231-256 | a request that stops the do-while loop, after none that does, is where it stops |
| `JiraClient.Offsets` | proxy-server/src/jira-client.ts:163-181 | the n-th request asks for `startAt` n times the page size |
| `JiraClient.OffsetsStep` | proxy-server/src/jira-client.ts:181 | each request advances `startAt` by one page |
| `JiraClient.GetAllBoardsUnfiltered` | proxy-server/src/jira-client.ts:162-186 | the unfiltered listing requests offsets 0, 50, 100, ... until a page is the last; the boards are the pages' concatenation, and an error is rethrown |
| `JiraClient.AddPage` | proxy-server/src/jira-client.ts:147-151 | each board of a page is pushed unless a board with its id is already there |
| `JiraClient.FetchProject` | proxy-server/src/jira-client.ts:129-159 | one project key's pages are added until the last page; an error ends that key's loop and keeps what was collected |
| `JiraClient.GetAllBoardsFiltered` | proxy-server/src/jira-client.ts:125-160 | the filtered listing goes through the project keys in turn, adding only boards whose id is new |
| `JiraClient.AddNewConcat` | proxy-server/src/jira-client.ts:128-160 | adding two board lists one after the other is adding their concatenation |
| `JiraClient.AddNewPrefix` | proxy-server/src/jira-client.ts:147-151 | adding boards keeps the boards already there, in front and in order |
| `JiraClient.AddNewFrom` | proxy-server/src/jira-client.ts:147-151 | a board is in the result only when it was there or was added |
| `JiraClient.AddNewIds` | proxy-server/src/jira-client.ts:147-151 | the result knows exactly the ids of both inputs |
| `JiraClient.AddNewDistinct` | proxy-server/src/jira-client.ts:146-151 | adding never repeats a board id |
| `JiraClient.FilteredBoardsProperties` | proxy-server/src/jira-client.ts:125-160 | the filtered board list has no two boards with the same id, knows every id fetched for any key, and holds only fetched boards |
| `JiraClient.GetAllBoards` | proxy-server/src/jira-client.ts:121-196 | with a non-empty key list the boards are fetched key by key, otherwise by the unfiltered listing |
| `JiraClient.CollectByTotal` | proxy-server/src/jira-client.ts:266-294 | the do-while loop of the sprint, sprint-issue and board-history listings requests successive offsets, appends each page and stops once the offset reaches the total; an error is rethrown |
| `JiraClient.SprintsOutcome` | proxy-server/src/jira-client.ts:246-255 | a 400 from any sprint page means no sprints at all and drops what was collected; another error is rethrown; otherwise every sprint listed |
| `JiraClient.GetAllSprints` | proxy-server/src/jira-client.ts:226-261 | the sprint listing's method returns that outcome after requesting successive offsets, 50 per page by default |
| `JiraClient.ActiveSprint` | proxy-server/src/jira-client.ts:201-218 | the active sprint is the first listed, null when none is listed, and an error is rethrown |
| `JiraClient.ClosedSprints` | proxy-server/src/jira-client.ts:299-316 | the closed sprints are requested with the given limit, 5 by default, and the listed values are returned; an error is rethrown |
| `JiraClient.LoggedMessage` | proxy-server/src/jira-client.ts:354-367 | an Axios error is logged with the first Jira error message when it is non-empty, else with its own message; other errors are logged whole |
| `JiraClient.Retries` | proxy-server/src/jira-client.ts:99-111 | the interceptor retries while the answer is a 429 with a request config, at most three times |
| `JiraClient.Pow2` | proxy-server/src/jira-client.ts:106 | the backoff factor is at least 1 |
| `JiraClient.Send` | proxy-server/src/jira-client.ts:93-115 | a request makes one retry per retryable answer, waiting 1, 2 and 4 seconds in turn, and returns the first final answer |
| `JiraClientCases.BoardsTwoPages` | proxy-server/src/__tests__/jira-client.test.ts:80-114 | the test case: two pages, the second the last, give three boards from requests at 0 and 50 |
| `JiraClientCases.BoardsSinglePage` | proxy-server/src/__tests__/jira-client.test.ts:116-134 | the test case: a single last page gives its boards after one request |
| `JiraClientCases.BoardsUnauthorized` | proxy-server/src/__tests__/jira-client.test.ts:281-303 | the test case: a 401 on the first request is rethrown and logged with Jira's message |
| `JiraClientCases.SprintIssuesTwoPages` | proxy-server/src/__tests__/jira-client.test.ts:181-212 | the test case: a total of 150 gives requests at 0 and 100 and three issues |
| `JiraClientCases.BoardHistoryTwoPages` | proxy-server/src/__tests__/jira-client.test.ts:249-278 | the test case: a total of 120 gives two requests and two issues |
| `JiraClientCases.SprintsBadRequestDropsAll` | proxy-server/src/jira-client.ts:243-251 | a 400 on the second sprint page gives no sprints at all, not the first page's |
| `JiraClientCases.SprintsServerErrorRethrown` | proxy-server/src/jira-client.ts:246-255 | the same failure as a 500 is rethrown |
| `JiraClientCases.FetchedA` | proxy-server/src/jira-client.ts:134-155 | one project key with a last page holding one board fetches that board |
| `JiraClientCases.FetchedB` | proxy-server/src/jira-client.ts:129-159 | a key whose second page fails keeps the first page's boards |
| `JiraClientCases.FilteredDedupAndPartialError` | proxy-server/src/jira-client.ts:125-160 | two keys both listing board 1, the second failing on its second page: board 1 appears once and the second key's other board is kept |
| `JiraClientCases.RetryThreeTimes` | proxy-server/src/jira-client.ts:99-111 | three 429s and then success: the fourth try is made |
| `JiraClientCases.RetryOnce` | proxy-server/src/jira-client.ts:99-111 | one 429 and then success: a single retry |
| `JiraClientCases.NoRetryOnServerError` | proxy-server/src/jira-client.ts:99-113 | a 500 is final at once |
| `JiraClientCases.NoRetryWithoutConfig` | proxy-server/src/jira-client.ts:99-113 | a 429 without a request config is not retried |
| `Routes.ErrorReply` | proxy-server/src/routes/jira-data.ts:119-161 | the catch ladder: Jira's 401 and 403 both become 401, a timeout code gives 504, a 429 without a network code gives 429, an unreachable code or a 5xx gives 503, anything else 500; the body repeats the status |
| `Routes.NoBoardsIsUnexpected` | proxy-server/src/routes/jira-data.ts:155-159 | the "No boards found" error thrown by the board listing reaches the handler as the generic 500 |
| `Routes.AuthMessages` | proxy-server/src/routes/jira-data.ts:131-138 | the 401 response says "Invalid Jira credentials" for Jira's 401 and "Access denied" for its 403 |
| `Routes.HandleGet` | proxy-server/src/routes/jira-data.ts:53-162 | the GET handler returns the response and leaves the cache as the reference function defines |
| `Routes.GetServesCache` | proxy-server/src/routes/jira-data.ts:72-85 | a live cached dashboard is served with status 200, and nothing is fetched or stored |
| `Routes.ErrorBodiesAgree` | proxy-server/src/routes/jira-data.ts:119-161 | every error response carries its own status code in its body (with lines 24-30) |
| `Routes.GetCachesDashboard` | proxy-server/src/routes/jira-data.ts:102-118 | a freshly built dashboard is returned with status 200 and cached under "dashboard-data" with the configured lifetime |
| `Routes.NoBoardsBranchUnreachable` | proxy-server/src/routes/jira-data.ts:92-100 | with no empty board list in the cache, the handler's "No boards found" 503 is never sent |
| `Routes.EmptyListingIsUnexpected` | proxy-server/src/routes/jira-data.ts:89-100 | an empty board listing with nothing cached ends in the generic 500, not the 503 (with lines 155-159) |
| `Routes.InvalidateAsWritten` | proxy-server/src/routes/jira-data.ts:167-183 | the invalidation route as written drops "dashboard-data" and "all-boards-config" and answers 200 |
| `Routes.InvalidateAsWrittenKeepsFilteredBoards` | proxy-server/src/routes/jira-data.ts:172-173 | with project keys configured, the board list cached under the filtered key survives the route as written |
| `Routes.InvalidateAsWrittenCounterexample` | proxy-server/src/routes/jira-data.ts:172-173 | a cache holding the "PROJ" board list still serves it after the route as written |
| `Routes.Invalidate` | proxy-server/src/routes/jira-data.ts:167-183 | the corrected route drops the dashboard and the board list under the key the GET route reads, and answers 200 |
| `Routes.InvalidateForcesRefetch` | proxy-server/src/routes/jira-data.ts:171-173 | after the corrected invalidation, neither the dashboard nor the board list the next GET would use is cached |
| `Routes.InvalidateKeepsOthers` | proxy-server/src/routes/jira-data.ts:171-173 | every other cache entry is kept as it was |
| `Routes.InvalidateKeepsSprints` | proxy-server/src/routes/jira-data.ts:171-173 | the sprint collection survives invalidation |
| `LegacyRules.MapStatus` | supabase/functions/jira-data/index.ts:100-106 | a status is Done exactly when it holds done, closed or resolved; In Progress exactly when it holds none of those but progress, dev or coding; To Do exactly when it holds no keyword of any group |
| `LegacyRules.AnyOfConcat` | supabase/functions/jira-data/index.ts:102-104 | a name holds a keyword of two groups together exactly when it holds one of either group |
| `LegacyRules.MapIssueType` | supabase/functions/jira-data/index.ts:115-121 | a type is a bug exactly when it holds "bug", an improvement exactly when it holds no "bug" but improvement or enhancement, a feature exactly when it holds no keyword of any group |
| `LegacyRules.DetermineHealth` | supabase/functions/jira-data/index.ts:123-127 | a squad is green exactly at 80 % or more with no blocker, red exactly when not green and under 50 % or with three or more blockers |
| `LegacyRules.HealthRulesDiffer` | supabase/functions/jira-data/index.ts:123-127 | where the serverless health rule parts from the proxy's: 75 % with no blocker, 60 % with two blockers, 45 % with none |
| `LegacyCases.PendingDevDiffers` | supabase/functions/jira-data/index.ts:103 | "dev pendente" is In Progress here, and To Do for the proxy |
| `LegacyCases.StoryIsFeature` | supabase/functions/jira-data/index.ts:115-121 | a story is a feature |
| `LegacyCases.SubTaskIsTechDebt` | supabase/functions/jira-data/index.ts:119 | a sub-task counts as technical debt, through its "task" |
| `LegacyCases.BugImprovementIsBug` | supabase/functions/jira-data/index.ts:117-118 | a bug that is also an improvement is a bug: the bug rule comes first |
| `LegacyCases.ReviewAndMissing` | supabase/functions/jira-data/index.ts:101-105 | a QA status is In Review; a missing status is To Do |
| `LegacyPaging.GatheredStep` | supabase/functions/jira-data/index.ts:35 | one more answered request appends its values; a failed one adds nothing |
| `LegacyPaging.StopIndex` | supabase/functions/jira-data/index.ts:32-38 | the loop leaves after the first request that fails or meets its listing's break condition, and after no earlier one |
| `LegacyPaging.FetchPages` | supabase/functions/jira-data/index.ts:29-40 | the paging loop returns what the reference fetch defines and asks for successive offsets of its page size |
| `LegacyPaging.StopIsFirst` | supabase/functions/jira-data/index.ts:32-38 | a request at or before the stop that ends the loop is the stop |
| `LegacyPaging.FetchAtError` | supabase/functions/jira-data/index.ts:85-88 | a failed request at the stop ends a catching listing with the values before it, and makes the other listings throw |
| `LegacyPaging.FetchAtBreak` | supabase/functions/jira-data/index.ts:36 | a break at the stop returns the values up to and including that request |
| `LegacyPaging.SprintIssueRequests` | supabase/functions/jira-data/index.ts:54-61 | when every answer reports the same total, the sprint issues take ceil(total / 100) requests, one for a total of at most 100 |
| `LegacyPaging.PartialListingsNeverThrow` | supabase/functions/jira-data/index.ts:77-90 | the board history and the board-issue fallback never throw |
| `LegacyPaging.FailedRequest` | supabase/functions/jira-data/index.ts:21-25 | a failed request ends a catching listing with the values of the requests before it; the other listings throw "Jira API <status>: <body>" (with lines 85-88) |
| `LegacyPaging.GatheredPrefix` | supabase/functions/jira-data/index.ts:35 | the gathered values only grow from request to request |
| `LegacyPaging.FetchIsPrefix` | supabase/functions/jira-data/index.ts:29-40 | a fetch returns the values of the requests up to some point, in order |
| `LegacyPaging.HistoryCap` | supabase/functions/jira-data/index.ts:83 | the board history stops at the first page that takes it past 500 issues |
| `LegacyPaging.GatheredFull` | supabase/functions/jira-data/index.ts:82 | after n full pages of a given size there are n times that many values |
| `LegacyPaging.FallbackAndHistoryLimits` | supabase/functions/jira-data/index.ts:83 | on a large backlog answered in full pages the board-issue fallback stops at exactly 100 issues and the history at 600 (with line 238) |
| `LegacyHandler.CleanDomain` | supabase/functions/jira-data/index.ts:14 | a leading https:// or http:// is removed from the domain, and nothing else changes |
| `LegacyHandler.CleanDomainOnce` | supabase/functions/jira-data/index.ts:14 | only one scheme prefix is removed |
| `LegacyHandler.ActiveSprintOf` | supabase/functions/jira-data/index.ts:42-49 | the active sprint is the first listed, or null on an empty list or any error |
| `LegacyHandler.ConfigsOf` | supabase/functions/jira-data/index.ts:164-168 | every board is paired with its active sprint, in board order |
| `LegacyHandler.FindSprints` | supabase/functions/jira-data/index.ts:161-168 | the loop over the boards pairs each with its sprint and keeps the first sprint found as the global one |
| `LegacyHandler.FirstSprintAppend` | supabase/functions/jira-data/index.ts:167 | a later board's sprint is taken only when no earlier board had one |
| `LegacyHandler.GoalEntries` | supabase/functions/jira-data/index.ts:171-174 | each goal entry starts with the bracketed board name, and there are none exactly when no active sprint has a goal |
| `LegacyHandler.CombinedGoalEmpty` | supabase/functions/jira-data/index.ts:171-175 | the combined goal is empty exactly when no active sprint has a goal |
| `LegacyHandler.BoardIssues` | supabase/functions/jira-data/index.ts:223-245 | a board is skipped exactly when it has a sprint and fetching that sprint's issues throws; a board without a sprint falls back to its open and recent issues |
| `LegacyHandler.PointBuckets` | supabase/functions/jira-data/index.ts:255-257 | one issue's story points land in exactly one bucket: Done, In Progress, or everything else |
| `LegacyHandler.PointTallySums` | supabase/functions/jira-data/index.ts:247-261 | the squad's points are the sums over its issues and over its Done issues, and every blocker-priority or flagged issue counts as a blocker |
| `LegacyHandler.PointBucketsCoverTotal` | supabase/functions/jira-data/index.ts:254-257 | the buckets together hold the squad's total, the done bucket its completed points, and completed never exceeds total |
| `LegacyHandler.PointPrioritiesCoverTotal` | supabase/functions/jira-data/index.ts:270-272 | the story points per priority make up the squad's total |
| `LegacyHandler.FoldsDiffer` | supabase/functions/jira-data/index.ts:255-261 | a finished blocker still counts here, and reviewed work counts as to do, unlike the proxy |
| `LegacyHandler.PointPersonsSum` | supabase/functions/jira-data/index.ts:264-267 | the entries add up to the squad's distribution; their names are the issues' distinct assignees in first-seen order; each entry holds the story points of exactly that person's issues (with line 358) |
| `LegacyHandler.PointPersonsOfBy` | supabase/functions/jira-data/index.ts:264-267 | the serverless person fold credits each issue with its story points in its status bucket |
| `LegacyHandler.TasksOf` | supabase/functions/jira-data/index.ts:275-286 | one task row per issue, in issue order |
| `LegacyHandler.FoldStep` | supabase/functions/jira-data/index.ts:247-298 | one more issue adds its own counters to the tally and its points to its assignee |
| `LegacyHandler.FoldIssues` | supabase/functions/jira-data/index.ts:247-298 | the loop over a board's issues computes the tally, the person list and the task rows the reference functions define |
| `LegacyHandler.Completion` | supabase/functions/jira-data/index.ts:320 | the completion is at most 100, 0 without points and 100 when everything is done |
| `LegacyHandler.SquadOf` | supabase/functions/jira-data/index.ts:320-353 | the squad record carries the board name, the sums over its issues, a point distribution that adds up to its total, and the health its completion and blockers give |
| `LegacyHandler.AlertOf` | supabase/functions/jira-data/index.ts:324-332 | a squad raises an alert exactly when it has blockers; the alert is critical from three blockers on and reports the points not done |
| `LegacyHandler.TotalsStep` | supabase/functions/jira-data/index.ts:215-364 | a skipped board leaves the accumulators as they are; a processed one adds its part |
| `LegacyHandler.ProcessBoard` | supabase/functions/jira-data/index.ts:215-363 | one board's issues are fetched and folded into its part, or the board is skipped when the fetch throws |
| `LegacyHandler.ProcessBoards` | supabase/functions/jira-data/index.ts:215-364 | the loop over the boards computes the accumulators the fold over boards defines |
| `LegacyHandler.TotalsAreSquadSums` | supabase/functions/jira-data/index.ts:408-412 | the sprint totals are the sums over the squads (with lines 355-356) |
| `LegacyHandler.TotalsCompletedWithinTotal` | supabase/functions/jira-data/index.ts:355-356 | the sprint's completed points never exceed its total |
| `LegacyHandler.PartSums` | supabase/functions/jira-data/index.ts:341-356 | a board's squad record carries its tally's totals, completed within total |
| `LegacyHandler.AddPartSums` | supabase/functions/jira-data/index.ts:355-356 | adding a board's part keeps the totals equal to the sums over the squads |
| `LegacyHandler.PrioritiesCoverTotal` | supabase/functions/jira-data/index.ts:270-272 | the priority totals over all boards make up the total story points |
| `LegacyHandler.SprintlessBoardsAlwaysCount` | supabase/functions/jira-data/index.ts:228-245 | every board without an active sprint yields a squad, as its fallback listing cannot throw |
| `LegacyHandler.HandleRequest` | supabase/functions/jira-data/index.ts:145-436 | the handler answers as the reference function defines |
| `LegacyHandler.HandleOutcomes` | supabase/functions/jira-data/index.ts:150-158 | every failure is a 500: missing settings, the board listing's error, or no boards; a dashboard is served exactly when the settings are present and some board was listed (with lines 428-435) |
| `LegacyHandler.ServedTotals` | supabase/functions/jira-data/index.ts:407-412 | a served dashboard's sprint totals are the sums over its squads, completed within total |
| `Filters.FilterValues.With` | src/components/dashboard/AdvancedFilters.tsx:35 | the chosen category takes the new values and every other category keeps its own |
| `Filters.ToggleFilter` | src/components/dashboard/AdvancedFilters.tsx:29-36 | a selected value is removed with all its copies and nothing else; an unselected one is appended; removal keeps the other values in their order; the other categories are untouched |
| `Filters.ToggleTwice` | src/components/dashboard/AdvancedFilters.tsx:29-36 | toggling an unselected value twice gives back the selection |
| `Filters.ClearedIsEmpty` | src/components/dashboard/AdvancedFilters.tsx:38-49 | clearing empties every category, and the count is zero exactly for the cleared selection |
| `Filters.ToggleCount` | src/components/dashboard/AdvancedFilters.tsx:29-49 | toggling a value on adds one to the active count; toggling it off takes away as many as it was selected |
| `Filters.WithoutCount` | src/components/dashboard/AdvancedFilters.tsx:32 | removing a value removes exactly its copies |
| `DashboardPage.ChooseData` | src/pages/Index.tsx:35 | the live data when there is some; otherwise the mock data exactly when the query failed, and nothing else |
| `DashboardPage.FilteredTasksKeep` | src/pages/Index.tsx:85-97 | a task is shown exactly when every category admits it, and the task order is kept |
| `DashboardPage.NoFiltersShowAll` | src/pages/Index.tsx:88-96 | with nothing selected, every task is shown in order |
| `DashboardPage.FilteredSquadsKeep` | src/pages/Index.tsx:100-104 | every squad without a squad selection; otherwise exactly the selected squads |
| `DashboardPage.OverallPercentage` | src/pages/Index.tsx:39-41 | completed over total story points, rounded to the nearest whole percent (halves up), or 0 without points; at most 100 when completed is within total |
| `DashboardPage.CriticalAlertsBounds` | src/pages/Index.tsx:43 | the critical count is at most the alert count, zero exactly when no alert is critical, all exactly when every one is |
| `DashboardPage.AddToSet` | src/pages/Index.tsx:61-65 | adding a value to a Set of the truthy values so far appends it exactly when it is non-empty and new |
| `DashboardPage.CollectTaskValues` | src/pages/Index.tsx:56-65 | the loop over the tasks collects the distinct non-empty priorities, statuses and squads in order of first appearance |
| `DashboardPage.AvailableOptions` | src/pages/Index.tsx:46-82 | the options computed are those the reference function defines |
| `DashboardPage.FieldOption` | src/pages/Index.tsx:76-79 | an option list from a task field holds exactly the field's non-empty values, ascending and once each |
| `DashboardPage.OptionsFromTasks` | src/pages/Index.tsx:61-79 | the priorities, statuses and squads offered are exactly the non-empty ones the tasks carry, ascending and without repeats |
| `DashboardPage.AssigneeOptions` | src/pages/Index.tsx:68-75 | the backend's assignees when it lists some, else exactly the assignees of the tasks |
| `DashboardPage.IssueTypeOptions` | src/pages/Index.tsx:69-78 | the backend's issue types when it lists some, else exactly the types of the tasks |
| `DashboardPage.SprintOptions` | src/pages/Index.tsx:72-80 | the sprint names of the backend listing, in its order, or none |
| `TaskTable.SquadOptionsOrder` | src/components/dashboard/TaskTable.tsx:39 | every squad of the tasks is offered exactly once, in order of first appearance |
| `TaskTable.FilterRowsShown` | src/components/dashboard/TaskTable.tsx:41-50 | the squad, status and search filters in a row keep exactly the tasks all three admit, in order |
| `TaskTable.OptionalFilter` | src/components/dashboard/TaskTable.tsx:43-45 | a filter that an "all" or an empty search switches off is one filter by "off, or the test holds" |
| `TaskTable.FilterSame` | src/components/dashboard/TaskTable.tsx:47 | two tests that agree on the tasks filter them alike |
| `TaskTable.LocaleCompare` | src/components/dashboard/TaskTable.tsx:58 | zero exactly for equal texts, negative exactly when the first comes before the second |
| `TaskTable.CompareFlips` | src/components/dashboard/TaskTable.tsx:53-60 | swapping the tasks negates the comparison, and descending is ascending with the tasks swapped |
| `TaskTable.CompareTransitive` | src/components/dashboard/TaskTable.tsx:53-60 | the comparator is transitive, given known priority and status names on those columns |
| `TaskTable.SortedRowsOrdered` | src/components/dashboard/TaskTable.tsx:52-61 | the sorted rows are a permutation of the filtered ones, in comparator order |
| `TaskTable.TotalPages` | src/components/dashboard/TaskTable.tsx:63 | the page count is the least number of eight-row pages that holds every row |
| `TaskTable.PageRows` | src/components/dashboard/TaskTable.tsx:64 | a page has at most eight rows, some when it exists and none past the last page |
| `TaskTable.PagesPrefix` | src/components/dashboard/TaskTable.tsx:64 | the first k pages read in order are the first 8k rows |
| `TaskTable.PagesCover` | src/components/dashboard/TaskTable.tsx:63-64 | all the pages, read in order, are exactly the rows |
| `TaskTable.PagerStaysInRange` | src/components/dashboard/TaskTable.tsx:162-163 | from an existing page, Prev and Next lead to an existing page, move by one and stop at the ends |
| `TaskTable.Toggled` | src/components/dashboard/TaskTable.tsx:66-69 | a click sorts by its column: the same column flips the direction, a new one starts ascending |
| `TaskTable.ToggleTwice` | src/components/dashboard/TaskTable.tsx:66-69 | two clicks on the sorted column restore the sort; on a new column they give descending |
| `TaskTable.TableState.constructor` | src/components/dashboard/TaskTable.tsx:31-36 | the table starts with no search, by key ascending, no squad or status filter, on the first page |
| `TaskTable.TableState.PageData` | src/components/dashboard/TaskTable.tsx:64 | the rows shown hold at most eight tasks |
| `TaskTable.TableState.ToggleSort` | src/components/dashboard/TaskTable.tsx:66-69 | the sort becomes the toggled one, and the search, filters and page are kept |
| `TaskTable.TableState.SetSearch` | src/components/dashboard/TaskTable.tsx:110 | the search takes the text and the page goes back to the first; nothing else changes |
| `TaskTable.TableState.SetFilterSquad` | src/components/dashboard/TaskTable.tsx:115 | the squad filter takes the choice and the page goes back to the first; nothing else changes |
| `TaskTable.TableState.SetFilterStatus` | src/components/dashboard/TaskTable.tsx:119 | the status filter takes the choice and the page goes back to the first; nothing else changes |
| `TaskTable.TableState.Prev` | src/components/dashboard/TaskTable.tsx:162 | the page becomes the previous one, stopping at the first; nothing else changes |
| `TaskTable.TableState.Next` | src/components/dashboard/TaskTable.tsx:158-163 | the page becomes the next one, stopping at the last; nothing else changes |
| `TaskTable.JoinAvoids` | src/components/dashboard/TaskTable.tsx:74 | a character in neither the parts nor the separator is not in their join |
| `TaskTable.QuotedAvoids` | src/components/dashboard/TaskTable.tsx:74 | a line holds no character other than a quote or comma that its values lack |
| `TaskTable.CsvLines` | src/components/dashboard/TaskTable.tsx:71-74 | when no value holds a line break, the export has the header line and then one line per sorted row, in row order |
| `TaskTable.CsvRowFields` | src/components/dashboard/TaskTable.tsx:74 | when no value holds a comma, a line splits on commas into the quoted values |
| `SquadPanel.SquadSprintsMatch` | src/components/dashboard/SquadDetailPanel.tsx:41-52 | a sprint is listed exactly when it belongs to the squad, in listing order; a squad without board id or project key lists none |
| `SquadPanel.InitialSprint` | src/components/dashboard/SquadDetailPanel.tsx:54 | the first listed sprint's name, or the empty text |
| `SquadPanel.SquadItems` | src/components/dashboard/SquadDetailPanel.tsx:57-58 | the tasks are exactly the squad's in the selected sprint (any sprint when none is selected), and the alerts exactly the squad's |
| `SquadPanel.DistributionSum` | src/components/dashboard/SquadDetailPanel.tsx:61-73 | every story point lands in exactly one of Done, In Progress and To Do |
| `SquadPanel.DistributionDone` | src/components/dashboard/SquadDetailPanel.tsx:63-64 | the Done bucket holds exactly the points of the Done tasks |
| `SquadPanel.DonePointsBound` | src/components/dashboard/SquadDetailPanel.tsx:61-73 | the Done points never exceed all the points |
| `SquadPanel.Completion` | src/components/dashboard/SquadDetailPanel.tsx:73-74 | the completion is at most 100, 0 without points and 100 when every point is done |
| `VelocityChart.Labels` | src/components/dashboard/VelocityChart.tsx:27 | the first squad's sprint labels in order, or none without squads |
| `VelocityChart.FindSprint` | src/components/dashboard/VelocityChart.tsx:31 | the index of the first entry for the sprint, or none exactly when no entry has it |
| `VelocityChart.PointsIn` | src/components/dashboard/VelocityChart.tsx:31-32 | the points of the first entry for the sprint, or 0 when there is none |
| `VelocityChart.Point` | src/components/dashboard/VelocityChart.tsx:29-33 | a point always has a "sprint" key |
| `VelocityChart.PointKeys` | src/components/dashboard/VelocityChart.tsx:29-33 | a point's keys are exactly "sprint" and the squad names |
| `VelocityChart.PointLastWins` | src/components/dashboard/VelocityChart.tsx:30-33 | a name's value is the points of the last squad of that name |
| `VelocityChart.PointLabel` | src/components/dashboard/VelocityChart.tsx:29-33 | the point holds its sprint label exactly when no squad is named "sprint", which would overwrite it |
| `VelocityChart.ChartDataShape` | src/components/dashboard/VelocityChart.tsx:27-35 | one point per label, in label order, keyed by "sprint" and all the squad names, carrying its label exactly when no squad is named "sprint" |
| `WorkItemAge.SortedDataOrdered` | src/components/dashboard/WorkItemAge.tsx:16 | the sorted copy holds the same items, oldest first |
| `WorkItemAge.ColourOf` | src/components/dashboard/WorkItemAge.tsx:98 | red exactly past ten days, yellow exactly past five up to ten, green exactly up to five |
| `WorkItemAge.ColourMonotone` | src/components/dashboard/WorkItemAge.tsx:98 | an older item never gets a fresher colour |
| `WorkItemAge.CellsOrdered` | src/components/dashboard/WorkItemAge.tsx:96-99 | one cell per item in sorted order: reds, then yellows, then greens |
| `CapacityChart.Truncate` | src/components/dashboard/CapacityChart.tsx:10 | a name of at most ten characters is kept; a longer one becomes its first ten and an ellipsis |
| `CapacityChart.TruncateTwice` | src/components/dashboard/CapacityChart.tsx:10 | shortening is idempotent and gives at most eleven characters |
| `CapacityChart.RowsShape` | src/components/dashboard/CapacityChart.tsx:9-13 | one row per squad, in order, with the shortened name, its total as committed and its capacity |

## Left out

- Random values are not modelled, because they are not deterministic:
  - the burndown series (`proxy-server/src/data-aggregator.ts:252-272`, `supabase/functions/jira-data/index.ts:129-143`);
  - the random velocity history (`proxy-server/src/data-aggregator.ts:693-698`);
  - the mock data generators.
- Floating-point series are not modelled: the capacity `round(total * 1.1)` (714), the cycle-time averages with `toFixed(1)` (765-777) and the priority-evolution series (780-790). `capacity` is an input of the capacity chart, copied through.
- The clock and everything derived from it is left out:
  - the 14-day created-versus-completed window and its `toLocaleDateString` labels, in both backends;
  - the work-item ages, which are inputs of the age chart;
  - the `new Date()` fallback sprint dates.
  - `now` is a parameter of the cache and of every operation that reads it.
- Concurrency is a sequential fold in board order: `Promise.all` over the boards, and the 60-second timeout race in the route. The source pushes squads, tasks and alerts in completion order. The model's lists are in board order, and no lemma about those lists relies on their order.
- Network and framework plumbing are not modelled, because they are not logic of the core:
  - the axios instance and its 30-second timeout;
  - Express routing, CORS headers and the OPTIONS answer of the serverless function;
  - `console` logging, the Deno `serve` and `fetch` calls, and the process lifecycle.
  - Only the decisions around them are modelled: which request, what is kept, what is thrown and what status is sent.
- The retry delay is not modelled as a wait. `JiraClient.Send` returns the delays it would wait, `2^retryCount * 1000` ms, and the wait itself is I/O.
- Story points are `nat`. The source reads JavaScript numbers, so fractional or negative points are possible there.
- `toLowerCase` and `toUpperCase` map ASCII and the one-to-one Latin-1 letters. Other Unicode case mappings are left out.
- `Strings.LexLeTotal`: `localeCompare` and the default `sort()` are code-point order on characters, not the locale's collation. The default `sort()` compares UTF-16 code units, which differs from code-point order when a character at U+10000 or above meets one in U+E000–U+FFFF.
- `CapacityChart.Truncate` counts characters, while JavaScript's `length` and `slice` count UTF-16 code units. The two differ only for characters outside the Basic Multilingual Plane.
- Types do not say what `src/types/dashboard.ts` has no logic for:
  - key order in JSON objects;
  - the `timestamp` of an error response, which is the clock;
  - the fields no modelled operation reads.
- A cached value of another kind than the one a caller expects is treated as a miss. The proxy stores every kind under its own keys, so this cannot happen there.
- `SquadFold.RoundPct` rounds the exact ratio `100 a / b` half up. The source rounds the floating-point product `(a / b) * 100`, which lands just below an exact half for some inputs: (23, 40) gives 57 in the source and 58 here, and (29, 200) and (57, 200) differ the same way.
- `SquadFold.CompletionPct` rounds through `SquadFold.RoundPct` and differs from the source at the same inputs.
- `LegacyHandler.Completion` rounds the exact ratio, with the same difference from the serverless function's floating-point `Math.round((a / b) * 100)`.
- `DashboardPage.OverallPercentage` rounds the exact ratio, with the same difference from the page's floating-point expression.
- `SquadPanel.Completion` rounds the exact ratio, with the same difference from the panel's floating-point expression.
- The "Failed to invalidate cache" 500 branch of the invalidation route is not modelled: the model's cache operations cannot throw.
- The serverless `getClosedSprints` (`supabase/functions/jira-data/index.ts:65-70`) is not modelled, because its handler never calls it. Its board history is modelled only as a listing with its limits, because the history feeds only the date window left out above.
- `SquadFold.PersonsOf` keeps every assignee as an entry of its own, in first-seen order. The source's `personMap` is a plain `{}`. An assignee named like an `Object.prototype` member, such as "constructor", "toString" or "__proto__", finds the inherited value, so no own entry is made and those units never reach `Object.entries`. Integer-like names such as "42" are listed before every other name.
- `LegacyHandler.PointPersonsOf` has the same two differences from the serverless function's plain-object `personMap`.
- `JiraClient.EndsByLast` and `JiraClient.EndsByTotal` are required by the paginated listings: some answer must be an error, a page marked `isLast`, or a page that reaches `total`. Against a server that never sends one, the source's `while (!isLast)` and do-while loops never end, and the model does not describe that run.
- `LegacyHandler.PointTallySums` counts a blocker for a priority holding "blocker" or a `flagged` that is exactly `true`. The serverless function counts any truthy `flagged`, and the model does not keep other values of that field.
- The serverless function's goal separator is mis-decoded in its source text (`supabase/functions/jira-data/index.ts:175`). The model joins those goals with the proxy's " • ", the separator it evidently stands for.
- `SquadNameCases.FormatQuadroLDC` states the source's own table value, "Lideranças do CEO". The proxy's test suite expects its mis-decoded spelling, and that expectation is not encoded.
- `Aggregator.Collected` leaves the relative order of two undated sprints to the sort. The source's comparator answers 1 both ways for that pair, so JavaScript guarantees no order between them either.
- `TaskTable.SortedRowsOrdered` states sortedness and the permutation only when the priority and status names on those columns are ones the table knows. For an unknown name the source's comparator gives NaN and is not a preorder, so no order is promised; neither is the stability of the sort.
- `TaskTable.Csv` builds the text exactly as the source does: every value is put between double quotes, and quotes inside a value are not doubled. So no round trip through a CSV reader is claimed. `TaskTable.CsvLines` and `TaskTable.CsvRowFields` state the line and field structure for values without line breaks or commas.
- `SquadPanel.SquadSprintsMatch` also states that a squad with neither a board id nor a project key lists no sprint. The proxy never fills either field on squads, so with proxy data the panel's sprint list is always empty.

## Findings

| source | as written | input that shows it | evidently intended | confidence | as-written member | corrected member |
|---|---|---|---|---|---|---|
| proxy-server/src/routes/jira-data.ts:172-173 | the invalidation route deletes "dashboard-data" and "all-boards-config" only, but with project keys configured the board list is cached under a key built from those keys | `JIRA_PROJECT_KEYS=PROJ` and a board list cached under the "PROJ" key: after invalidation the next GET still serves the old board list | invalidation drops the board list under the key the GET route reads, so the next GET lists the boards again | high; not executed | `Routes.InvalidateAsWritten` (`Routes.InvalidateAsWrittenKeepsFilteredBoards`, `Routes.InvalidateAsWrittenCounterexample`) | `Routes.Invalidate` (`Routes.InvalidateForcesRefetch`) |
