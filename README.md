# Job-hunt assistant: a verified model of its text and listing pipeline

This project models, in Dafny, the logic core of a personal website's job-hunt assistant, a Next.js application written in TypeScript. These are the parts it covers:

- **Job analysis** (`/api/analyze-job`), in the modules below:
  - `KeywordExtraction` pulls technical and soft keywords out of a job posting. It uses an ordered skill dictionary (`SkillDictionary`) whose regex-escaped entries are rewritten for display (`KeywordNormalizer`), then adds phrase-trigger captures.
  - `RequirementExtraction` collects requirement sentences from bullet lines and phrase patterns.
  - `MatchScoring` scores the posting against the resume's skills as an integer percentage.
  - `CoverLetter` writes a cover letter. It picks a company name, the skills to claim and the skills to promise to learn.
- **Job listing** (`/api/fetch-jobs`):
  - `FeedItems` reads the JobIndex and IT-jobbank RSS 2.0 feeds into job records. This covers description clean-up, the title/company split, the location guess, sequential ids and per-source caps.
  - `JobListing` models what happens next. The two feeds are merged with a URL dedup, filtered to the Copenhagen area, replaced by demonstration jobs when nothing is left, scored with a quick dictionary and stably sorted by score.
- **Job database** (`/api/auto-check-jobs`): `JobDatabase` models the stored jobs as a class whose ingest step changes them in place. It keeps jobs whose URL is new, deduplicates them across keyword batches, marks the high matches as notified, appends them, and keeps the last 500 jobs.
- **Client pages**, each a class over its React state or a set of functions:
  - the game-hero picker's pick lists and rule-based scoring (`HeroPicker`);
  - the job list page's date labels, score badges, search guard and analyse-all re-sort (`JobsPage`);
  - the analyser page's keyword highlighting (`KeywordHighlight`);
  - the settings page's keyword list, profile switch and loaded threshold (`JobSettings`).

The shared modules are these:

- `Wrappers`: `Option`.
- `Strings`: the JavaScript string primitives, defined concretely:
  - `trim` on ECMAScript white space;
  - `toLowerCase` on ASCII and Latin-1;
  - `split` on one character;
  - the `/\s+/g` collapse;
  - number formatting.
- `Seqs`: `filter`, `map`, `slice`, the `Set` dedup, the "first with this key" dedup, and a stable descending sort.

The design has three threads:

- **Regexes are parameters.** Every regular-expression match the code delegates to the JavaScript engine is a function-typed parameter. The model proves what holds for every engine behaviour. The string rewrites that are real program logic are written out concretely, such as the dictionary normaliser and the description clean-up.
- **Imperative code stays imperative.** Loops in the source are `while` loops proved equal to a specification fold, and lemmas state the promised properties of that fold. Objects whose state the source updates are classes with `modifies` clauses.
- **I/O is abstract.** Network replies, file contents, the clock and the mailer are parameters or return values.

Some behaviour of the code is reproduced as written and proved as such:

- The normaliser turns `c\+\+` into `c-+`.
- Requirements are deduplicated before the white-space clean-up, so two requirements can come out equal.
- The five demonstration jobs share one URL and are never deduplicated.
- A future date reads "-3 dage siden".
- The highlighter's global regex carries `lastIndex` from one `test` to the next. A piece can therefore stay plain even though it matches the keyword.

## Model

| member | source | states |
|---|---|---|
| KeywordNormalizer.DropDoubleBackslash | app/api/analyze-job/route.ts:101 | the `/\\\\/g` replace never lengthens its input, and it leaves backslash-free text alone |
| KeywordNormalizer.DashEscapes | app/api/analyze-job/route.ts:101 | the `/\\.\\?/g` replace (backslash, a non-line-terminator, an optional backslash become `-`) never lengthens its input |
| KeywordNormalizer.UnescapeDots | app/api/analyze-job/route.ts:101 | the `/\\\./g` replace never lengthens its input |
| KeywordNormalizer.NormalizeNoBackslash | app/api/analyze-job/route.ts:101-105 | a pattern without a backslash (e.g. `mobile.?first`) is emitted verbatim by both the technical and the soft normaliser |
| KeywordNormalizer.DropDoubleBackslashWellEscaped | app/api/analyze-job/route.ts:101 | on dictionary-shaped (well-escaped) text the first replace deletes nothing |
| KeywordNormalizer.DashEscapesWellEscaped | app/api/analyze-job/route.ts:101 | on well-escaped text the dash replace consumes every backslash |
| KeywordNormalizer.NormalizeWellEscaped | app/api/analyze-job/route.ts:101-105 | a well-escaped pattern normalises to a backslash-free keyword; the trailing `/\\\./g` replace never fires, so the technical and soft forms agree |
| KeywordNormalizer.ProgrammingLanguagesWellEscaped | app/api/analyze-job/route.ts:15-17 | every programming-language entry is well escaped |
| KeywordNormalizer.FrontendFrameworksLibrariesWellEscaped | app/api/analyze-job/route.ts:18-22 | every frontend entry is well escaped |
| KeywordNormalizer.DesignToolsWellEscaped | app/api/analyze-job/route.ts:23-25 | every design-tool entry is well escaped |
| KeywordNormalizer.UXUIDesignWellEscaped | app/api/analyze-job/route.ts:26-34 | every UX/UI entry is well escaped |
| KeywordNormalizer.BackendFrameworksWellEscaped | app/api/analyze-job/route.ts:35-37 | every backend entry is well escaped |
| KeywordNormalizer.DatabasesSearchWellEscaped | app/api/analyze-job/route.ts:38-42 | every database entry is well escaped |
| KeywordNormalizer.TestingWellEscaped | app/api/analyze-job/route.ts:43-45 | every testing entry is well escaped |
| KeywordNormalizer.DevOpsInfrastructureWellEscaped | app/api/analyze-job/route.ts:46-51 | every DevOps entry is well escaped |
| KeywordNormalizer.CloudToolsWellEscaped | app/api/analyze-job/route.ts:52-56 | every cloud entry is well escaped |
| KeywordNormalizer.MethodologiesPracticesWellEscaped | app/api/analyze-job/route.ts:57-61 | every methodology entry is well escaped |
| KeywordNormalizer.APIsArchitectureWellEscaped | app/api/analyze-job/route.ts:62-67 | every API/architecture entry is well escaped |
| KeywordNormalizer.SecurityDataWellEscaped | app/api/analyze-job/route.ts:68-72 | every security entry is well escaped |
| KeywordNormalizer.CMSPlatformsWellEscaped | app/api/analyze-job/route.ts:73-76 | every CMS entry is well escaped |
| KeywordNormalizer.OtherTechnologiesWellEscaped | app/api/analyze-job/route.ts:77-78 | every other-technology entry is well escaped |
| KeywordNormalizer.SoftGeneralSoftSkillsWellEscaped | app/api/analyze-job/route.ts:82-88 | every general soft skill is well escaped |
| KeywordNormalizer.SoftDanishSoftSkillsWellEscaped | app/api/analyze-job/route.ts:89-93 | every Danish soft skill is well escaped |
| KeywordNormalizer.TechnicalWellEscaped | app/api/analyze-job/route.ts:14-79 | the whole technical dictionary is well escaped |
| KeywordNormalizer.SoftWellEscaped | app/api/analyze-job/route.ts:81-94 | the whole soft-skill dictionary is well escaped |
| KeywordNormalizer.QuickProgrammingLanguagesWellEscaped | app/api/fetch-jobs/route.ts:16 | every quick programming-language entry is well escaped |
| KeywordNormalizer.QuickFrontendWellEscaped | app/api/fetch-jobs/route.ts:18 | every quick frontend entry is well escaped |
| KeywordNormalizer.QuickBackendWellEscaped | app/api/fetch-jobs/route.ts:20 | every quick backend entry is well escaped |
| KeywordNormalizer.QuickDatabasesWellEscaped | app/api/fetch-jobs/route.ts:22 | every quick database entry is well escaped |
| KeywordNormalizer.QuickCloudDevOpsWellEscaped | app/api/fetch-jobs/route.ts:24 | every quick cloud/DevOps entry is well escaped |
| KeywordNormalizer.QuickToolsMethodologiesWellEscaped | app/api/fetch-jobs/route.ts:26 | every quick tools entry is well escaped |
| KeywordNormalizer.QuickTestingWellEscaped | app/api/fetch-jobs/route.ts:28 | every quick testing entry is well escaped |
| KeywordNormalizer.QuickWellEscaped | app/api/fetch-jobs/route.ts:14-29 | the whole quick dictionary is well escaped |
| KeywordNormalizer.EntryNormalizesClean | app/api/analyze-job/route.ts:101-105 | any entry of a well-escaped dictionary normalises to a backslash-free keyword |
| KeywordNormalizer.DictionaryNormalizesClean | app/api/analyze-job/route.ts:99-105 | for every entry of the technical, soft and quick dictionaries, the normalised form has no backslash |
| KeywordNormalizer.DashOneEscape | app/api/analyze-job/route.ts:101 | an escape `\c` not followed by a backslash becomes exactly one `-` |
| KeywordNormalizer.DashEscapeWithTrail | app/api/analyze-job/route.ts:101 | an escape `\c\` (optional backslash present) also becomes one `-` |
| KeywordNormalizer.NormalizeSingleEscape | app/api/analyze-job/route.ts:101 | `p\cq` with backslash-free `p`, `q` normalises to `p-q` (`next\.js` gives `next-js`, `\.net` gives `-net`) |
| KeywordNormalizer.NormalizeTrailingEscape | app/api/analyze-job/route.ts:101 | `p\c\dq` normalises to `p-dq`: the second escape is only half undone |
| KeywordNormalizer.NormalizeCpp | app/api/analyze-job/route.ts:16 | `c\+\+` normalises to `c-+` |
| KeywordNormalizer.NormalizeNextJs | app/api/analyze-job/route.ts:19 | `next\.js` normalises to `next-js` |
| KeywordNormalizer.NormalizeDotNet | app/api/analyze-job/route.ts:36 | the dictionary entry `\.net` normalises to `-net` |
| KeywordNormalizer.NormalizeCiCd | app/api/fetch-jobs/route.ts:26 | the quick-list entry `ci\/cd` normalises to `ci-cd` |
| KeywordExtraction.KeepTriggerCaptures | app/api/analyze-job/route.ts:117-124 | the `exec` loop of one trigger keeps exactly the trimmed captures that pass the length and stopword filter, in order |
| KeywordExtraction.ExtractKeywords | app/api/analyze-job/route.ts:96-136 | the trigger loop plus the `Set` and the cap compute the specified keyword record |
| KeywordExtraction.KeywordsBounded | app/api/analyze-job/route.ts:130-136 | at most 25 technical keywords; no technical or soft keyword repeated |
| KeywordExtraction.KeywordsOrder | app/api/analyze-job/route.ts:99-134 | the technical list is the first 25 of: distinct dictionary hits in dictionary order, then the distinct phrase captures not already hit, in discovery order; the hits are a subsequence of the normalised dictionary |
| KeywordExtraction.HitsHaveNoBackslash | app/api/analyze-job/route.ts:99-105 | no technical or soft dictionary hit carries a backslash |
| KeywordExtraction.KeptCapturesMembers | app/api/analyze-job/route.ts:118-123 | a string is kept from one trigger iff some capture trims to it and it passes the filter |
| KeywordExtraction.SmartExtractedMembers | app/api/analyze-job/route.ts:108-125 | a phrase capture is present iff some trigger captured text trimming to it, longer than 2 and no stopword |
| KeywordExtraction.CapturesKept | app/api/analyze-job/route.ts:119-123 | every phrase capture is trimmed, longer than 2, and not a stopword |
| KeywordExtraction.StopWordsIgnoreCase | app/api/analyze-job/route.ts:121 | the stopword test ignores case ("The", "THIS" dropped; "Docker" kept) |
| RequirementExtraction.LineBreaksToSpaces | app/api/analyze-job/route.ts:192 | after `/[\r\n]+/g` becomes one space, no `\r` or `\n` remains |
| RequirementExtraction.ScanLine | app/api/analyze-job/route.ts:151-160 | the loop over the two bullet shapes for one line yields the specified candidates |
| RequirementExtraction.ScanPhrase | app/api/analyze-job/route.ts:178-184 | the `exec` loop of one phrase keeps exactly the group texts longer than 15, in order |
| RequirementExtraction.ExtractRequirements | app/api/analyze-job/route.ts:140-198 | the line loop, phrase loop, dedup, clean-up, length filter and cap compute the specified requirement list |
| RequirementExtraction.CleanLayout | app/api/analyze-job/route.ts:189-195 | a cleaned requirement is trimmed, single-spaced with plain spaces, and free of line breaks |
| RequirementExtraction.RequirementsShape | app/api/analyze-job/route.ts:187-198 | at most 12 requirements, each 16..299 long, trimmed, without line breaks and without two white-space characters in a row |
| RequirementExtraction.BulletsFirst | app/api/analyze-job/route.ts:150-198 | the distinct bullet candidates come before the distinct phrase candidates that are not bullets, then clean, filter, cap |
| RequirementExtraction.BulletKeptMembers | app/api/analyze-job/route.ts:152-158 | a shape's match yields a candidate iff its group is non-empty and the trimmed text is longer than 15 and does not start with "learn" |
| RequirementExtraction.LineBulletMembers | app/api/analyze-job/route.ts:145-161 | a line yields a candidate iff one of the two shapes matches with a group that passes the bullet filter |
| RequirementExtraction.LearnBulletsDropped | app/api/analyze-job/route.ts:156 | a bullet starting with "learn" in any case is never a candidate |
| RequirementExtraction.FirstGroupWins | app/api/analyze-job/route.ts:180 | a non-empty group 1 decides the requirement text ("N years" in the minimum-years patterns) |
| RequirementExtraction.SecondGroupFallback | app/api/analyze-job/route.ts:180 | group 2 is used only when group 1 is missing or empty; with both missing the text is empty |
| RequirementExtraction.PhrasesKept | app/api/analyze-job/route.ts:180-183 | every phrase candidate is trimmed and longer than 15 |
| RequirementExtraction.DedupBeforeCleanup | app/api/analyze-job/route.ts:188-196 | two candidates differing only in white space both survive the dedup and come out as the same requirement twice |
| MatchScoring.RoundPercent | app/api/analyze-job/route.ts:231-232 | `Math.round(m/n*100)` is the integer r with r - 1/2 <= 100m/n < r + 1/2, at most 100 |
| MatchScoring.MatchScore | app/api/analyze-job/route.ts:217-233 | 50 for an empty keyword list; always within 0..100 |
| MatchScoring.ScoreAllMatched | app/api/analyze-job/route.ts:225-232 | every keyword matched gives 100 |
| MatchScoring.ScoreNoneMatched | app/api/analyze-job/route.ts:225-232 | no keyword matched gives 0 |
| MatchScoring.RoundPercentAll | app/api/analyze-job/route.ts:231-232 | n of n rounds to 100 |
| MatchScoring.RoundPercentNone | app/api/analyze-job/route.ts:231-232 | 0 of n rounds to 0 |
| MatchScoring.MatchedKeywordsMembers | app/api/analyze-job/route.ts:218-227 | a keyword is matched iff some languages/frontend/backend/tools skill, lowercased, contains it or is contained in it |
| MatchScoring.EmptySkillMatchesAll | app/api/analyze-job/route.ts:226 | an empty profile skill matches every keyword, so the score is 100 |
| MatchScoring.ScoreIgnoresOther | app/api/analyze-job/route.ts:218-223 | `skills.other` never changes the score |
| MatchScoring.MatchIgnoresKeywordCase | app/api/analyze-job/route.ts:226 | the match test ignores the keyword's case |
| MatchScoring.RoundPercentMonotone | app/api/analyze-job/route.ts:231-232 | more matched keywords never lower the score |
| MatchScoring.ScoreExamples | app/api/analyze-job/route.ts:232 | halves round up: 1/2 is 50, 1/3 is 33, 2/3 is 67, 1/8 is 13 |
| CoverLetter.CompanyDefault | app/api/analyze-job/route.ts:240-253 | no pattern captures: the company is "your company" |
| CoverLetter.CompanyFirstWins | app/api/analyze-job/route.ts:247-253 | the first pattern that captures a non-empty group decides, trimmed, whatever later patterns capture |
| CoverLetter.LetterMatchedIsRelated | app/api/analyze-job/route.ts:268-272 | the letter's extra `rs === skillLower` test adds nothing to inclusion either way |
| CoverLetter.SkillListsShape | app/api/analyze-job/route.ts:265-284 | matched skills: at most 6; new skills: at most 3; both order-preserving subsequences of the technical keywords; disjoint |
| CoverLetter.SkillListsCover | app/api/analyze-job/route.ts:256-284 | before the caps, each keyword is matched or new according to the whole profile, `other` included |
| CoverLetter.OtherCountsForLetterOnly | app/api/analyze-job/route.ts:256-262 | a skill only in `other` is claimed in the letter while the score counts it as unmatched |
| CoverLetter.ExperienceParagraph | app/api/analyze-job/route.ts:287-299 | with no experience the stock paragraph; otherwise it opens with the latest role |
| CoverLetter.NewSkillsParagraph | app/api/analyze-job/route.ts:303 | present exactly when there are new skills |
| CoverLetter.ClosingLine | app/api/analyze-job/route.ts:305 | the second achievement of the latest role when it is non-empty, else the stock line |
| CoverLetter.SoftParagraph | app/api/analyze-job/route.ts:307 | present exactly when soft skills were found |
| CoverLetter.LetterFrame | app/api/analyze-job/route.ts:295-316 | the letter opens by addressing the company and ends with the signature block |
| CoverLetter.GenerateCoverLetter | app/api/analyze-job/route.ts:236-319 | the pattern loop with `break` yields the letter for the specified company name; requires a non-empty education list |
| FeedItems.AreaParam | app/api/fetch-jobs/route.ts:81-95 | no `area` iff the location is absent, empty or "danmark" in any case; otherwise the mapped code of the lowercased alias, or the location as given |
| FeedItems.SearchParams | app/api/fetch-jobs/route.ts:76-95 | the query carries the keywords, and an `area` exactly when the location filters |
| FeedItems.AreaParamExamples | app/api/fetch-jobs/route.ts:83-93 | "København" maps to storkbh, "DANMARK" sets none, "Vejle" passes through |
| FeedItems.ReplaceAll | app/api/fetch-jobs/route.ts:120-121 | a literal global replace with a shorter replacement never lengthens, and changes nothing when the pattern is absent |
| FeedItems.HexRun | app/api/fetch-jobs/route.ts:122 | the length of the leading `[0-9A-F]` run, maximal |
| FeedItems.EntityLength | app/api/fetch-jobs/route.ts:122 | a `&#x…;` match at the start is at least 5 characters and ends with `;` |
| FeedItems.DropHexEntities | app/api/fetch-jobs/route.ts:122 | deleting hex entities never lengthens the text, and changes nothing without `&` |
| FeedItems.StripTags | app/api/fetch-jobs/route.ts:123 | replacing tags by one space never lengthens the text |
| FeedItems.StripTagsNoTag | app/api/fetch-jobs/route.ts:123 | no complete tag survives, and no `>` appears that was not there |
| FeedItems.StripTagsExample | app/api/fetch-jobs/route.ts:123 | a tag becomes one space; a lone `<` stays |
| FeedItems.Cut | app/api/fetch-jobs/route.ts:126 | `substring(0, 1500)` is a prefix of at most 1500 characters, the whole text when it is short enough |
| FeedItems.CleanDescription | app/api/fetch-jobs/route.ts:119-126 | the cleaned description has at most 1500 characters and does not start with white space |
| FeedItems.CutLayout | app/api/fetch-jobs/route.ts:124-126 | collapse, trim and cut leave only single plain spaces; trimmed when nothing is cut |
| FeedItems.CleanDescriptionLayout | app/api/fetch-jobs/route.ts:119-126 | the cleaned description has only single plain spaces and is trimmed unless the cut fell after a space |
| FeedItems.JobTitle | app/api/fetch-jobs/route.ts:130 | a non-empty title never gives an empty job title |
| FeedItems.TitleWithoutComma | app/api/fetch-jobs/route.ts:129-131 | without a comma the company is "Se opslag" and the title is the trimmed title, or the title itself when that is blank |
| FeedItems.TitleWithComma | app/api/fetch-jobs/route.ts:129-131 | with a comma the company is the trimmed last segment (comma-free) and the title comes from the first segment |
| FeedItems.LocationDefault | app/api/fetch-jobs/route.ts:134-151 | no pattern matches: the location is "Danmark" |
| FeedItems.LocationFirstWins | app/api/fetch-jobs/route.ts:143-151 | the match of the first matching pattern, in pattern order, is the location |
| FeedItems.InferLocation | app/api/fetch-jobs/route.ts:143-151 | the pattern loop with `break` computes the specified location |
| FeedItems.ParsedUpTo | app/api/fetch-jobs/route.ts:108-166 | the reader never holds more jobs than its cap; each item's date is its date tag or, when that is empty or missing, the current time |
| FeedItems.ReadItem | app/api/fetch-jobs/route.ts:109-165 | one loop body: skip, push the next record, or throw on the date conversion, as specified; an empty or missing date tag is converted as the current time |
| FeedItems.ReadFeed | app/api/fetch-jobs/route.ts:101-173 | the `exec` loop with its cap, inside `try`, computes the specified feed, empty date tags falling back to the current time |
| FeedItems.EmptyDateReadsNow | app/api/fetch-jobs/route.ts:112-165 | a first item with title and link but an empty date tag is emitted with the converted current time as its date |
| FeedItems.FeedThrown | app/api/fetch-jobs/route.ts:170-173 | once an item throws, the reader returns `[]` |
| FeedItems.NoneSticks | app/api/fetch-jobs/route.ts:170-173 | a throw is never undone by later items |
| FeedItems.CapSticks | app/api/fetch-jobs/route.ts:108 | after the cap is reached no further item is looked at |
| FeedItems.ItemJobShape | app/api/fetch-jobs/route.ts:153-165 | the n-th record gets id `<prefix>n` and keeps a non-empty title and link |
| FeedItems.ParsedJobsShape | app/api/fetch-jobs/route.ts:153-165 | every emitted job is numbered by its position counted from 1, with title and URL |
| FeedItems.FeedShape | app/api/fetch-jobs/route.ts:106-166 | at most 20 (JobIndex) or 25 (IT-jobbank) jobs, ids `rss-1`, `rss-2`, … (resp. `itjobbank-k`) without gaps, each with a title and URL |
| FeedItems.FeedIdsDistinct | app/api/fetch-jobs/route.ts:155 | no two jobs of one feed share an id |
| FeedItems.FirstItemBadDate | app/api/fetch-jobs/route.ts:161-173 | an emitted first item whose date (its tag, or the current time for an empty tag) cannot be converted makes the whole feed `[]` |
| FeedItems.SkippedItemsTakeNoId | app/api/fetch-jobs/route.ts:153-155 | items without a title or link are skipped and emit nothing |
| JobRecords.ScoreOrZero | app/api/fetch-jobs/route.ts:480 | `matchScore || 0`: a missing score counts as 0 |
| JobListing.QuickKeywordsShape | app/api/fetch-jobs/route.ts:13-37 | the quick keywords are distinct, an order-preserving subsequence of the normalised quick dictionary, and backslash-free |
| JobListing.QuickKeywordsMembers | app/api/fetch-jobs/route.ts:31-34 | a keyword is found iff some quick entry the lowercased text mentions normalises to it |
| JobListing.MergeShape | app/api/fetch-jobs/route.ts:410-415 | after the merge no two jobs share a URL, every URL survives, each kept job is the first with its URL, order is kept |
| JobListing.MergeOneFeed | app/api/fetch-jobs/route.ts:413-415 | a feed with distinct URLs passes the dedup unchanged |
| JobListing.LocationFilterMembers | app/api/fetch-jobs/route.ts:420-454 | outside Copenhagen mode all jobs are kept; in it, a job is kept iff it names no excluded area and some Copenhagen area; order is kept |
| JobListing.ExclusionWins | app/api/fetch-jobs/route.ts:444-453 | a job naming Aarhus is dropped even when it also names København |
| JobListing.CopenhagenModeExamples | app/api/fetch-jobs/route.ts:420-422 | "KBH" and "Copenhagen" turn the filter on; "Danmark", "Aarhus" and no location do not |
| JobListing.MockJobs | app/api/fetch-jobs/route.ts:274-334 | five demonstration jobs, all with the same URL |
| JobListing.MockJobsNotDeduplicated | app/api/fetch-jobs/route.ts:462-468 | the fallback yields all five although the URL dedup would keep one |
| JobListing.RankedShape | app/api/fetch-jobs/route.ts:470-480 | the ranked list is sorted by descending score, is a permutation of the scored jobs, keeps the order of equal scores, and every score is in 0..100 |
| JobListing.ScoredKeepsRecord | app/api/fetch-jobs/route.ts:472-476 | scoring changes nothing but `matchScore` |
| JobListing.FetchJobsOutcome | app/api/fetch-jobs/route.ts:391-496 | a listing comes back iff the body parses with non-empty keywords and the resume loads; missing keywords give 400; every failure is 400 or 500 |
| JobListing.FetchJobsListing | app/api/fetch-jobs/route.ts:403-488 | a listing is the ranking of the candidates, non-empty, with exact total count, on page 1 |
| JobListing.ChosenNonEmpty | app/api/fetch-jobs/route.ts:463-468 | the fallback means there is always something to rank |
| JobListing.RankedLength | app/api/fetch-jobs/route.ts:472-480 | ranking drops no job |
| JobListing.FallbackWhenEmpty | app/api/fetch-jobs/route.ts:463-468 | with nothing left after the filter, the candidates are the demonstration jobs |
| JobDatabase.SomeHasUrl | app/api/auto-check-jobs/route.ts:60 | true iff some job has that URL |
| JobDatabase.Database.Default | app/api/auto-check-jobs/route.ts:37-44 | the fallback record: no jobs, never checked, the six default keywords, the placeholder e-mail, threshold 80 |
| JobDatabase.Database.Loaded | app/api/auto-check-jobs/route.ts:32-34 | a database read from its file holds exactly the stored fields |
| JobDatabase.Database.JobExists | app/api/auto-check-jobs/route.ts:59-61 | true iff some stored job has exactly that URL |
| JobDatabase.Database.AutoCheck | app/api/auto-check-jobs/route.ts:86-177 | a throwing request answers 500 and leaves the database alone; otherwise the stored jobs become the last 500 of old jobs plus the marked unique new jobs, `lastChecked` is now, the result counts new, high-match and stored jobs, and the notifier is called with the high-match jobs iff there are some |
| JobDatabase.GatheredThrown | app/api/auto-check-jobs/route.ts:97-126 | one throwing request makes the whole run throw |
| JobDatabase.GatheredAreNew | app/api/auto-check-jobs/route.ts:113-122 | every gathered job has a URL absent before the run, `foundAt` now and `notified` false |
| JobDatabase.AddedShape | app/api/auto-check-jobs/route.ts:128-150 | the added jobs have distinct URLs, differ from the deduplicated jobs only in `notified`, and are notified iff (score or 0) reaches the threshold |
| JobDatabase.AddedAreNew | app/api/auto-check-jobs/route.ts:113-150 | every added job has a URL absent before the run, was found now, and is notified iff it reaches the threshold |
| JobDatabase.AddedFirstAndCovering | app/api/auto-check-jobs/route.ts:128-131 | each added job is the first gathered with its URL, across keyword batches, and every gathered URL is added |
| JobDatabase.KeepLastShape | app/api/auto-check-jobs/route.ts:156-159 | the cap keeps the last min(500, n) entries in order; below it nothing is dropped |
| JobDatabase.StoredBelowCap | app/api/auto-check-jobs/route.ts:152-159 | below the cap the stored jobs stay in front, untouched, followed by the added ones |
| JobDatabase.GatheredOne | app/api/auto-check-jobs/route.ts:109-124 | one ok reply against an empty database gathers all its jobs, stamped |
| HeroPicker.ScoreHero | app/dota-picker/page.tsx:87-159 | the step-by-step score and reasons equal the base plus each rule's points and reasons, in rule order |
| HeroPicker.TeamNeedsFirst | app/dota-picker/page.tsx:95-108 | the stun, initiation and support-only save rules add their points and reasons |
| HeroPicker.TeamNeedsSecond | app/dota-picker/page.tsx:110-123 | the pushing, frontline and teamfight rules add their points and reasons |
| HeroPicker.CounterRules | app/dota-picker/page.tsx:125-139 | the three counter rules add their points and reasons |
| HeroPicker.BonusRules | app/dota-picker/page.tsx:141-157 | the BKB, core scaling and lane rules add their points and reasons |
| HeroPicker.ScoreAtLeastBase | app/dota-picker/page.tsx:88-157 | with non-negative stats the score is at least 20 |
| HeroPicker.SaveOnlyForSupport | app/dota-picker/page.tsx:105-108 | outside the support role the save/heal stat never changes the score |
| HeroPicker.ScalingOnlyForCores | app/dota-picker/page.tsx:147-151 | scaling adds exactly 8 for carry/mid with scaling at least 3, and nothing otherwise |
| HeroPicker.BkbBonus | app/dota-picker/page.tsx:141-145 | a BKB-piercing ability (at least 1) adds exactly 10; below 1 it adds nothing |
| HeroPicker.RecommendationsEligible | app/dota-picker/page.tsx:81-162 | at most 10 recommendations, each from the hero list, of the selected role, and in neither pick list |
| HeroPicker.RecommendationsOrdered | app/dota-picker/page.tsx:161-162 | highest score first; equal scores keep hero-list order |
| HeroPicker.RecommendationsTop | app/dota-picker/page.tsx:161-162 | the kept ten are a top ten: no hero cut scores more than one kept |
| HeroPicker.ScoreAll | app/dota-picker/page.tsx:87-160 | the `.map` loop scores each eligible hero, in order |
| HeroPicker.ScoreColor | app/dota-picker/page.tsx:179-184 | four colour bands, split at 80, 60 and 40, each exactly its range |
| HeroPicker.ScoreColorMonotone | app/dota-picker/page.tsx:179-184 | a higher score never gets a lower band |
| HeroPicker.Picker.constructor | app/dota-picker/page.tsx:28-42 | the initial state with the loaded heroes, no picks, no role, picking for allies |
| HeroPicker.Picker.FilteredHeroes | app/dota-picker/page.tsx:173-177 | a hero is shown iff its lowercased name contains the lowercased search term and neither side picked it; hero order is kept |
| HeroPicker.Picker.AddPick | app/dota-picker/page.tsx:44-51 | the hero joins the side being picked for when new there and the list has room (4 allies, 5 enemies); otherwise no list changes; the search term is cleared; caps and no-duplicates preserved |
| HeroPicker.Picker.RemovePick | app/dota-picker/page.tsx:53-59 | every occurrence leaves the named list, the rest keep their order, the other list is untouched; caps and no-duplicates preserved |
| HeroPicker.Picker.SelectRole | app/dota-picker/page.tsx:221 | sets the role and nothing else |
| HeroPicker.Picker.PickFor | app/dota-picker/page.tsx:240-250 | sets the side to pick for and nothing else |
| HeroPicker.Picker.Search | app/dota-picker/page.tsx:317 | sets the search term and nothing else |
| HeroPicker.Picker.AnalyzeTeamNeeds | app/dota-picker/page.tsx:61-165 | without a role the recommendations are unchanged; otherwise they are the specified top ten; nothing else changes |
| JobsPage.DiffDays | app/jobs/page.tsx:89 | the floor of the millisecond difference in days |
| JobsPage.FormatDays | app/jobs/page.tsx:91-95 | 0 is "I dag", 1 is "I går", any other d < 7 (negative too) is "d dage siden", below 30 weeks ⌊d/7⌋, else months ⌊d/30⌋ |
| JobsPage.FormatDaysCounts | app/jobs/page.tsx:94-95 | the week label shows 1..4 weeks, the month label the completed 30-day months |
| JobsPage.FutureDatesReadAsDays | app/jobs/page.tsx:89-93 | a future date reads as "-n dage siden" |
| JobsPage.MatchColor | app/jobs/page.tsx:98-103 | gray iff the score is missing or 0; otherwise green at 80+, yellow at 50..79, red below |
| JobsPage.MatchBadge | app/jobs/page.tsx:105-110 | no badge iff the score is missing or 0; otherwise the same three bands |
| JobsPage.BadgeMatchesColor | app/jobs/page.tsx:98-110 | badge and colour always tell the same band |
| JobsPage.AnalyzedJobsShape | app/jobs/page.tsx:60-84 | the job count is kept, sorted by descending score, a permutation of the scored jobs, each an old job with only its score replaced (0 on a failed request) |
| JobsPage.AnalyzedJobsStable | app/jobs/page.tsx:81 | jobs with equal scores keep their order |
| JobsPage.AllFailedKeepsOrder | app/jobs/page.tsx:74-81 | when every request throws, every job scores 0 and the order is kept |
| JobsPage.RefusalMessage | app/jobs/page.tsx:48 | the server's error when non-empty, else "Kunne ikke hente jobs" |
| JobsPage.JobsPageState.constructor | app/jobs/page.tsx:20-26 | the initial page state: no keywords, location københavn, no jobs |
| JobsPage.JobsPageState.SearchJobs | app/jobs/page.tsx:28-58 | blank keywords only set the error (no request, jobs kept); otherwise the list is cleared then replaced by the answer or the error is set, and loading ends |
| JobsPage.JobsPageState.AnalyzeAllJobs | app/jobs/page.tsx:60-84 | the jobs become the analysed, re-sorted list; nothing else but the analysing flag changes |
| KeywordHighlight.RegexTest | app/job-analyzer/page.tsx:37 | a global `test` hits iff `lastIndex` is within the piece and a match starts at or after it; a miss resets `lastIndex` to 0 |
| KeywordHighlight.PushPieces | app/job-analyzer/page.tsx:36-54 | the piece loop pushes exactly the specified spans and plain pieces and advances the key counter |
| KeywordHighlight.ApplyKeyword | app/job-analyzer/page.tsx:29-59 | one keyword's pass re-segments every part as specified |
| KeywordHighlight.RenderLine | app/job-analyzer/page.tsx:25-60 | one line through every keyword, as specified |
| KeywordHighlight.HighlightKeywords | app/job-analyzer/page.tsx:12-69 | the whole function equals the specified highlighting |
| KeywordHighlight.RenderLinesShape | app/job-analyzer/page.tsx:22-68 | output line i is input line i highlighted from the counter the earlier lines leave, with a break unless it is last |
| KeywordHighlight.HighlightShape | app/job-analyzer/page.tsx:13-65 | unchanged iff keywords are missing or the text is empty; otherwise one element per `\n`-line, each but the last followed by a break |
| KeywordHighlight.ResegmentText | app/job-analyzer/page.tsx:30-58 | one keyword's pass keeps the displayed text, provided splitting does |
| KeywordHighlight.HighlightLineText | app/job-analyzer/page.tsx:25-60 | the parts of a highlighted line display exactly the line |
| KeywordHighlight.HighlightKeepsText | app/job-analyzer/page.tsx:21-68 | the displayed lines joined by `\n` are the input text |
| KeywordHighlight.ResegmentNoEmpty | app/job-analyzer/page.tsx:51-53 | one keyword's pass leaves no empty plain part |
| KeywordHighlight.HighlightLineNoEmpty | app/job-analyzer/page.tsx:25-60 | with a keyword no empty plain part remains; with none the line is its own single part |
| KeywordHighlight.ResegmentKeepsMarks | app/job-analyzer/page.tsx:55-57 | every span given to a pass is copied to its output |
| KeywordHighlight.EarlierSpansSurvive | app/job-analyzer/page.tsx:28-60 | a span made by an earlier keyword is never re-split by later ones |
| KeywordHighlight.ResegmentStyled | app/job-analyzer/page.tsx:38-46 | one pass keeps every span naming a keyword and styled technical iff that keyword is technical |
| KeywordHighlight.HighlightLineStyled | app/job-analyzer/page.tsx:38-46 | every span of a line is styled technical iff its keyword is in the technical list |
| KeywordHighlight.ResegmentKeys | app/job-analyzer/page.tsx:30-58 | one pass keeps span keys distinct, and every old key in the output comes from an input span |
| KeywordHighlight.HighlightLineKeys | app/job-analyzer/page.tsx:41 | a line's spans get distinct keys from the counter it starts with |
| KeywordHighlight.RenderLinesKeys | app/job-analyzer/page.tsx:22-68 | keys are distinct within each line, and each line's keys are below the next line's |
| KeywordHighlight.HighlightKeysUnique | app/job-analyzer/page.tsx:22-41 | no two spans anywhere in the output share a key |
| JobSettings.LoadedThreshold | app/job-settings/page.tsx:40 | a missing or 0 threshold reads as 80; any other is kept |
| JobSettings.LoadedThresholdStable | app/job-settings/page.tsx:40 | reading back a loaded threshold changes nothing |
| JobSettings.AddKeywordSpec | app/job-settings/page.tsx:128-133 | the list is kept as a prefix; exactly the trimmed input is added when non-blank and absent; no duplicates introduced |
| JobSettings.AddKeywordIdempotent | app/job-settings/page.tsx:128-133 | adding the same input twice adds it once |
| JobSettings.RemoveKeywordSpec | app/job-settings/page.tsx:135-137 | every equal entry is removed, the rest kept in order; an absent keyword changes nothing |
| JobSettings.RemoveUndoesAdd | app/job-settings/page.tsx:128-137 | removing a just-added keyword gives the list back |
| JobSettings.FindProfile | app/job-settings/page.tsx:69 | none iff no profile has the id; a found profile is listed with that id |
| JobSettings.FindProfileFirst | app/job-settings/page.tsx:69 | the first profile with the id is the one found |
| JobSettings.SettingsPage.constructor | app/job-settings/page.tsx:17-25 | the initial page state: threshold 80, active profile "it-developer" |
| JobSettings.SettingsPage.LoadSettings | app/job-settings/page.tsx:34-46 | a failed load changes nothing; otherwise e-mail, threshold (defaulted) and keywords are taken from the reply |
| JobSettings.SettingsPage.EditNewKeyword | app/job-settings/page.tsx:328 | sets the input field and nothing else |
| JobSettings.SettingsPage.AddKeyword | app/job-settings/page.tsx:128-133 | the keyword list becomes the specified addition; the field is cleared exactly when the list changed |
| JobSettings.SettingsPage.RemoveKeyword | app/job-settings/page.tsx:135-137 | the keyword list becomes the specified removal; nothing else changes |
| JobSettings.SettingsPage.SelectProfile | app/job-settings/page.tsx:68-87 | an unknown id changes nothing; a known one sets the active profile, keywords and threshold from it, and the message says whether saving threw |
| Strings.Trim | app/api/analyze-job/route.ts:119 | `trim()` removes white space, and only white space, from both ends: the result is a slice of the input, everything before and after it is white space, and it neither starts nor ends with white space |
| Strings.TrimIdempotent | app/api/analyze-job/route.ts:194 | trimming twice is trimming once |
| Strings.BlankIffAllSpace | app/jobs/page.tsx:29 | `!s.trim()` holds iff every character is white space |
| Strings.ToLower | app/api/analyze-job/route.ts:96 | `toLowerCase()` keeps the length and lowers each character |
| Strings.ToLowerIdempotent | app/api/analyze-job/route.ts:226 | lowering twice is lowering once |
| Strings.SplitOn | app/job-analyzer/page.tsx:21 | `split('\n')` gives at least one segment, none containing the separator |
| Strings.SplitJoin | app/job-analyzer/page.tsx:21 | joining the segments with the separator gives the string back |
| Strings.SplitCount | app/api/fetch-jobs/route.ts:129-131 | there are two or more segments iff the separator occurs |
| Strings.CollapseSpaces | app/api/analyze-job/route.ts:193 | `/\s+/g` to one space: empty iff the input is, with white space at the ends iff the input had it |
| Strings.CollapseSpacesLayout | app/api/analyze-job/route.ts:193 | after the collapse only single plain spaces remain |
| Strings.NatToString | app/api/fetch-jobs/route.ts:155 | decimal digits, with a leading zero only for 0 |
| Strings.NatToStringInjective | app/api/fetch-jobs/route.ts:155 | different numbers print differently, so record ids differ |
| Seqs.UniqueByDistinct | app/api/fetch-jobs/route.ts:413-415 | after the first-with-this-key filter no two elements share a key |
| Seqs.UniqueByKeepsFirst | app/api/fetch-jobs/route.ts:413-415 | each kept element is the first in the input with its key |
| Seqs.UniqueByCovers | app/api/fetch-jobs/route.ts:413-415 | every key of the input is kept |
| Seqs.UniqueSpec | app/api/analyze-job/route.ts:130 | `[...new Set(s)]` is duplicate-free, has the same members, and keeps first-occurrence order |
| Seqs.SortDescSpec | app/api/fetch-jobs/route.ts:480 | the descending sort is sorted and a permutation |
| Seqs.SortDescStable | app/api/fetch-jobs/route.ts:480 | the sort is stable: equal keys keep their order |
| Seqs.TopOfSorted | app/dota-picker/page.tsx:161-162 | sorting then `slice(0, n)` keeps a top n |

## Left out

- Request handling, `NextResponse`, `getResumeData`, file reads and writes and `saveDatabase` are not modelled. Their results are parameters: a fetch function, a reply value, a resume, or the loaded fields.
- fetchJobPosting (app/api/analyze-job/route.ts:322-339) and the analysis `POST` wrapper are not modelled, because they are URL fetching and JSON plumbing.
- The fetch-jobs `calculateMatchScore` (app/api/fetch-jobs/route.ts:53-69) is not modelled separately. It is the analyze-job one without `other`, and `MatchScoring.MatchScore` models both.
- The listing `POST` and `analyzeAllJobs` run their requests concurrently with `Promise.all`. The model runs them in list order, and each reply is a given value.
- scrapeJobIndex (app/api/fetch-jobs/route.ts:337-389) is not modelled: nothing calls it.
- The JavaScript regex engine is abstract: `\b`, the phrase triggers, bullet shapes, company and location patterns, RSS tag extraction and the highlighter's split are all parameters. Because of that, the model does not capture three behaviours:
  - `\b` around `#`, `+` and `.`;
  - `$` without the `m` flag;
  - a keyword-derived regex that throws for an entry such as "C++".
- KeywordHighlight.HighlightKeepsText: the text-preservation lemmas assume the split keeps every character. That holds for a split by a pattern with one capture group. It is stated as a hypothesis, because the split itself is abstract.
- Lengths are counted in Unicode code points, while JavaScript's `length` and `substring` count UTF-16 code units. A character outside the Basic Multilingual Plane counts once in the model and twice in the source. This moves these cut and filter points for text holding such characters:
  - FeedItems.Cut, the `substring(0, 1500)` of a description (app/api/fetch-jobs/route.ts:126 and :224);
  - the requirement length bounds `> 15` and `< 300` in RequirementExtraction.InBounds and the bullet and phrase filters (app/api/analyze-job/route.ts:156, :181 and :196);
  - the capture filter `skill.length > 2` in KeywordExtraction.KeepsCapture (app/api/analyze-job/route.ts:121);
  - the `lastIndex > |piece|` test in KeywordHighlight.RegexTest.
  A JavaScript cut that splits a surrogate pair in two is not modelled.
- Strings.ToLower: case folding is exact for ASCII and Latin-1 (Æ, Ø, Å) only; other Unicode letters are kept as they are.
- MatchScoring.RoundPercent: `Math.round` over a floating-point quotient is modelled as integer round-half-up, `(200m + n) / (2n)`; floating-point error and NaN are left out.
- Dates are left out: `new Date(...)` parsing, `toISOString` and `Date.now()`. Day differences are integers, the ISO conversion is a parameter that may fail, and the auto-check's `now` is one value for the whole run.
- The mailer (`lib/email.ts`) and the test-email route are not modelled. A notification is returned as a value.
- The cron start/stop routes, the settings and profiles routes, and the settings page's loadProfiles, checkCronStatus, saveSettings, startCron, runManualCheck and sendTestEmail are not modelled. They are request plumbing and field assignments.
- JSX and `className` rendering are left out: spans, `<div>`s and `<br/>` are data. So are the clipboard, the timers, and the hero-list load by `fetch('/data/heroes.json')`; the loaded list is given to `HeroPicker.Picker.constructor`.
- The hero picker's `useEffect` re-runs analyzeTeamNeeds after every pick or role change. The model leaves that scheduling out and calls `AnalyzeTeamNeeds` directly.
- HeroPicker.Picker.AddPick and HeroPicker.Picker.RemovePick: React's batched `setState` is modelled as immediate assignment.
- Loose JSON typing is not modelled: a `matchScore` of the wrong type, `NaN` thresholds, non-array `jobs`. Records are well-typed datatypes.
