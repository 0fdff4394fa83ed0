# SuitePrompt marketplace and learning platform: a verified model

This project models in Dafny the logic beneath a Next.js marketplace of AI
prompts and skills for NetSuite, and the SuiteCloud learning platform that
ships with it. The source is TypeScript; one Dafny module stands for each
source file:

| module | file | what it covers |
|---|---|---|
| `Common` | (shared) | optional values, the JavaScript string and array operations the sources use (`toLowerCase` on ASCII, `trim`, `includes`, `split`, `replace`, `filter`, `slice`, stable `sort`, `new Set`), and `Math.round` on percentages |
| `CatalogTypes` | types/marketplace.ts, netsuite-marketplace/suitecloud-learning-platform/types/marketplace.ts | catalog records, filter options, sort keys, lookup by id |
| `PromptHelpers` | lib/prompt-helpers.ts | submission ids, placeholder extraction, sanitising, turning a submission into a catalog prompt |
| `SubmitRoute` | app/api/prompts/submit/route.ts | the request schema over the parsed JSON body (types, bounds, the issues it reports and which of them stop the parse) and its cross-field rule, the CAPTCHA gate, the order of the handler's steps, error to status mapping |
| `GitHub` | lib/github.ts | branch, path and pull-request naming, the description template, the order of the repository calls |
| `MergeSubmission` | scripts/merge-submission.js | merging an approved submission into the catalog |
| `RootCatalog` | lib/marketplace.ts | the main marketplace's query engine |
| `SuiteCatalog` | netsuite-marketplace/suitecloud-learning-platform/lib/marketplace.ts | the learning platform's query engine, related items, business areas |
| `SubmissionForm` | components/marketplace/PromptSubmissionForm.tsx | the submission form's list editing, client schema and submit handler |
| `ContentTab` | components/marketplace/PromptContentTab.tsx | input variables, the live preview, copy and download text, the layout choice |
| `FilterBar` | components/marketplace/FilterBar.tsx | the filter record each control produces |
| `NavigationState` | hooks/use-navigation-state.ts | the remembered set of expanded sidebar folders |
| `NavMain` | components/nav-main.tsx | folder ids, address matching, auto-expansion |
| `SuiteNavMain` | netsuite-marketplace/suitecloud-learning-platform/components/nav-main.tsx | open folders and fade-in delays |
| `LearningTypes`, `ProgressTracker` | components/learning/ProgressTracker.tsx | learning-path progress records and the overall percentage |
| `Search` | components/ui/Search.tsx | the learning search box |
| `DeploymentSimulator` | netsuite-marketplace/suitecloud-learning-platform/components/interactive/DeploymentSimulator.tsx | the five-step deployment walk-through |
| `CodePlayground` | components/interactive/CodePlayground.tsx | the editor's run analysis and templates |
| `Rapid101` | app/rapid-101/page.tsx, app/marketplace/learn/rapid-101/page.tsx | the step-by-step tutorial page (both copies have the same rules) |

Pure code is modelled by datatypes, functions and lemmas. Code that updates
state step by step is modelled by classes whose methods say exactly what the
new state is: the submission form, the content tab, the filter bar's box,
the navigation hook, the two sidebars, the progress tracker, the search box,
the simulator, the playground, the tutorial page and the merge script's
workspace. The loops of the sources (the search's nested `forEach`, the
preview's substitution loop, the sidebar initialiser and auto-expansion, the
simulator's run, the business-area collection) are `while` loops with
invariants, proved against a specification function; the query engines
reassign a working copy filter by filter and then sort it, as the sources do.

Clocks, randomness, the network (the CAPTCHA service, the mail service, the
repository API), storage and the file system are parameters: an instant, a
reply given in advance, or a map standing for the storage.

The model keeps these behaviours of the code as they are written:

- Titles and descriptions are length-checked before they are sanitised, so a
  title made only of angle brackets is accepted and stored empty
  (`SubmitRoute.AngleOnlyTitleStoredEmpty`).
- When a submission names no input variables they are extracted from
  `content` only, whatever the format, so a prompt-studio or skill
  submission gets none from its own body (`PromptHelpers.InputVariablesFor`).
- The learning platform's engine has no case for the "popularity" order,
  which therefore keeps catalog order (`SuiteCatalog.PopularityKeepsOrder`),
  unlike the main engine, where it sorts by downloads.
- The `${NAME}` placeholders of the prompt detail view accept upper-case
  letters and `_` only, while the submission helper also accepts lower-case
  letters.
- The tutorial's percentage reads 100% exactly on the last step only while
  the exercise has fewer than 200 steps (`Rapid101.FullOnlyAtLastStep`,
  `Rapid101.FullBeforeLastStepAt200`); the shipped exercise is far shorter.
- Auto-expansion tests each folder against the set as it was when the effect
  ran and toggles afterwards; two matching folders with the same id would be
  toggled twice. It is proved never to close a folder, and to open every
  matching folder when the ids are distinct (`NavMain.AutoExpand`).
- The progress percentage of a path with no modules but stored records is
  NaN or Infinity, as JavaScript computes it (`ProgressTracker.OverallProgress`).
- A tutorial exercise with no steps cannot be rendered (`Rapid101.Render`).

## Model

| member | source | states |
|---|---|---|
| Common.LowerChar | lib/marketplace.ts:14 | an upper-case ASCII letter becomes its lower-case letter; every other character is kept; no upper-case letter results |
| Common.ToLower | lib/marketplace.ts:14 | same length, each character lowered (also lines 17-19) |
| Common.ToLowerIdempotent | lib/marketplace.ts:14 | lowering twice is lowering once (also lines 17-19) |
| Common.Trim | lib/prompt-helpers.ts:128 | the result is a slice of the text with only white space before and after it, and it neither starts nor ends with white space: exactly the outer white space is removed |
| Common.TrimParts | lib/prompt-helpers.ts:128 | trimming the start and then the end leaves a slice with white space only around it |
| Common.TrimIdempotent | lib/prompt-helpers.ts:125-129 | trimming twice is trimming once |
| Common.StripAngles | lib/prompt-helpers.ts:127 | the result holds exactly the characters of the text other than `<` and `>` |
| Common.StripAnglesAppend | lib/prompt-helpers.ts:127 | a concatenation is stripped part by part, so the kept characters stay in order |
| Common.StripAnglesChar | lib/prompt-helpers.ts:127 | a single character is dropped iff it is `<` or `>`, otherwise kept once |
| Common.DashWhitespace | components/nav-main.tsx:54 | no white space remains and every other character of the text is kept |
| Common.DashWord | components/nav-main.tsx:54 | a stretch without white space is copied unchanged |
| Common.DashRun | components/nav-main.tsx:54 | a white-space run followed by a non-white character or the end becomes exactly one dash |
| Common.DashWhitespaceJoin | components/nav-main.tsx:54 | non-empty words separated by white-space runs come out separated by single dashes, in place |
| Common.ToLowerJoin | components/nav-main.tsx:54 | lower-casing words joined by a separator gives the lower-cased words joined by the lower-cased separator |
| Common.JoinWithAppend | components/nav-main.tsx:53-55 | joining two lists of words is joining each and putting the separator between |
| Common.DashWhitespaceChars | components/nav-main.tsx:54 | every character of the result is a dash or a character of the text |
| Common.ReplaceAllSelf | components/marketplace/PromptContentTab.tsx:48-49 | replacing a placeholder by itself leaves the text as it was |
| Common.ReplaceAllAbsent | components/marketplace/PromptContentTab.tsx:48-49 | a text without the pattern is left as it is |
| Common.ReplaceAllJoin | components/marketplace/PromptContentTab.tsx:48-49 | a pattern whose first character does not recur in it, put between parts that do not hold it, is replaced at exactly those places |
| Common.ReplaceAllKeeps | components/marketplace/PromptContentTab.tsx:48-49 | an occurrence of a text that no occurrence of the pattern can overlap survives the replacement |
| Common.Split | components/nav-main.tsx:60 | at least one piece, none holding the separator (also line 90) |
| Common.SplitJoin | components/nav-main.tsx:60 | joining the pieces with the separator gives the text back (also line 90) |
| Common.SplitCount | components/interactive/CodePlayground.tsx:64 | one more piece than occurrences of the separator |
| Common.NatToString | app/rapid-101/page.tsx:46 | non-empty decimal digits without a leading zero, one digit exactly below ten, whose value (`DigitsValue`, most significant digit first) is the number |
| Common.NatToStringInjective | app/rapid-101/page.tsx:46 | different numbers print differently |
| Common.Filter | netsuite-marketplace/suitecloud-learning-platform/lib/marketplace.ts:9-46 | exactly the elements that satisfy the predicate, drawn from the list |
| Common.FilterCount | netsuite-marketplace/suitecloud-learning-platform/lib/marketplace.ts:9-46 | every occurrence of a matching element is kept and none of the others |
| Common.FilterConcat | netsuite-marketplace/suitecloud-learning-platform/lib/marketplace.ts:9-46 | filtering a concatenation filters each part and keeps their order |
| Common.FilterAppend | netsuite-marketplace/suitecloud-learning-platform/lib/marketplace.ts:9-46 | a matching last element is kept last, so matches stay in list order |
| Common.FilterStep | netsuite-marketplace/suitecloud-learning-platform/lib/marketplace.ts:9-46 | one filter of a chain passes an element appended to its input on to the end of its output iff it matches |
| Common.FilterFilter | netsuite-marketplace/suitecloud-learning-platform/lib/marketplace.ts:9-46 | two successive filters are one filter by both conditions |
| Common.Narrow | lib/marketplace.ts:9-11 | a conditional filter whose predicate accepts everything when switched off equals the filter |
| Common.Dedupe | components/marketplace/PromptContentTab.tsx:34 | no duplicates, the same members, never longer, first element kept first |
| Common.SliceEnd | netsuite-marketplace/suitecloud-learning-platform/lib/marketplace.ts:156 | the end index of `slice(0, end)`: within the length, the end itself when in range, counted from the end when negative |
| Common.Insert | netsuite-marketplace/suitecloud-learning-platform/lib/marketplace.ts:51-60 | inserting into a descending list keeps it descending and adds exactly the element |
| Common.SortDesc | netsuite-marketplace/suitecloud-learning-platform/lib/marketplace.ts:51-60 | the comparator sort: descending by the key and a permutation of the input |
| Common.InsertStable | netsuite-marketplace/suitecloud-learning-platform/lib/marketplace.ts:51-60 | the inserted element goes after every element of its own rank, and the others of each rank keep their order |
| Common.SortDescStable | netsuite-marketplace/suitecloud-learning-platform/lib/marketplace.ts:51-60 | the sort is stable: the elements of each rank keep the order they had in the input |
| Common.SortStrings | netsuite-marketplace/suitecloud-learning-platform/lib/marketplace.ts:199 | `Array.from(set).sort()`: strictly ascending, holding exactly the set's members |
| Common.AscendingUnique | netsuite-marketplace/suitecloud-learning-platform/lib/marketplace.ts:199 | a strictly ascending list is determined by its members |
| Common.TopRanked | netsuite-marketplace/suitecloud-learning-platform/lib/marketplace.ts:145-156 | the first entries of the ranked list: as many as the slice keeps, a sub-multiset of the input (no entry more often than in the input), descending, and each ranking at least as high as any left out |
| Common.TopRankedStable | netsuite-marketplace/suitecloud-learning-platform/lib/marketplace.ts:145-156 | the sort is stable, so for each rank the entries kept are the first ones of that rank in the input, in input order (through Common.SortDescStable) |
| Common.PrefixDominates | netsuite-marketplace/suitecloud-learning-platform/lib/marketplace.ts:156 | a prefix of a descending list ranks at least as high as the rest |
| PromptHelpers.GeneratePromptId | lib/prompt-helpers.ts:37-41 | the id starts with `submitted-`; the clock reading and the random fragment are parameters |
| PromptHelpers.GeneratePromptIdInjective | lib/prompt-helpers.ts:37-41 | two equal ids come from the same clock reading and the same random fragment |
| PromptHelpers.NameRun | lib/prompt-helpers.ts:48-49 | the longest prefix made of name characters (`A-Z`/`_` in brackets, letters/`_` in `${}`) |
| PromptHelpers.MatchAt | lib/prompt-helpers.ts:48-49 | a match at the start is a non-empty name whose whole placeholder starts the text |
| PromptHelpers.MatchAtToken | lib/prompt-helpers.ts:48-49 | a placeholder at the start of the text is always matched there, with its own name |
| PromptHelpers.Scan | lib/prompt-helpers.ts:48-53 | every name of a global match with its delimiters sliced off is a non-empty run of name characters |
| PromptHelpers.ScanComplete | lib/prompt-helpers.ts:48-53 | a name is scanned iff it is a valid name and its placeholder occurs in the text |
| PromptHelpers.ExtractVariables | lib/prompt-helpers.ts:47-57 | no duplicates; a name is in the result iff a bracket or a dollar scan found it |
| PromptHelpers.ExtractVariablesComplete | lib/prompt-helpers.ts:47-57 | a name is extracted iff `[NAME]` (upper-case/`_`) or `${name}` (letters/`_`) occurs in the content |
| PromptHelpers.ExtractVariablesBracketsFirst | lib/prompt-helpers.ts:51-56 | the result starts with the de-duplicated bracket names, in order of first appearance |
| PromptHelpers.SanitizeInput | lib/prompt-helpers.ts:125-129 | no `<` or `>`, no leading or trailing whitespace, only characters of the input, and the result is the angle-stripped text with exactly its outer white space removed |
| PromptHelpers.SanitizeKeepsClean | lib/prompt-helpers.ts:125-129 | a text without angle brackets and without outer white space is kept as it is |
| PromptHelpers.SanitizeIdempotent | lib/prompt-helpers.ts:125-129 | sanitising twice is sanitising once |
| PromptHelpers.BodyFor | lib/prompt-helpers.ts:69-87 | general and mcp take `content`, prompt-studio `systemPrompt`, skill `skillContent`, a missing field giving "" |
| PromptHelpers.InputVariablesFor | lib/prompt-helpers.ts:98-103 | a supplied non-empty list is kept; otherwise the names extracted from a non-empty `content` (never from the other bodies), every one a placeholder of it, and none without content |
| PromptHelpers.FormatSubmissionAsPrompt | lib/prompt-helpers.ts:62-120 | id, title, description, format, area, body and MCP tools as given; model settings exactly for prompt-studio; the first platform or none; the input variables chosen as above; compatibility []; author name given, id "submitted-…", avatar ""; zero rating and downloads; tags default []; created == updated |
| GitHub.BranchName | lib/github.ts:31 | the branch is `submissions/prompt-` followed by exactly the prompt id |
| GitHub.FilePath | lib/github.ts:40 | the path is `data/submissions/`, the prompt id and `.json`, so the id can be read back from it |
| GitHub.Preview | lib/github.ts:105 | a body of at most 500 characters is kept whole; a longer one is cut to its first 500 characters followed by "..." |
| GitHub.PreviewKeepsStart | lib/github.ts:105 | the preview always starts with the first (up to) 500 characters of the body |
| GitHub.GeneratePRDescription | lib/github.ts:84-126 | the description is the concatenation of the template's pieces and opens with the `## New Prompt Submission` heading |
| GitHub.DescriptionMentions | lib/github.ts:88-122 | the description contains the title, description, format, category, submitter, content preview and file-path lines |
| GitHub.Plan | lib/github.ts:22-70 | five calls: getRef of `heads/main`; createRef of the new branch at getRef's sha; the file at its path with message "Add prompt submission: " + title on the new branch; the pull request from that branch to `main`; the labels `prompt-submission` and `needs-review` on that pull request's number |
| GitHub.CallsMade | lib/github.ts:21-76 | between one and five calls are made |
| GitHub.FirstFailure | lib/github.ts:76-81 | there is no failure exactly when all five calls succeed |
| GitHub.CreateSubmissionPR | lib/github.ts:17-82 | the calls made are the plan up to and including the first failing one; the result is the pull request's url and number exactly when nothing failed, otherwise the failure's message or "Failed to create GitHub PR" |
| GitHub.TemplateTrimmed | lib/github.ts:84-126 | the template's pieces open with `#` and close with `_`, so `.trim()` removes only the line break and indent after them and leaves the pieces' concatenation |
| MergeSubmission.Merged | scripts/merge-submission.js:36-42 | one more prompt; a permutation of the old prompts plus the submission; ordered by `createdAt`, newest first |
| MergeSubmission.MergedTies | scripts/merge-submission.js:36-42 | the sort is stable: the prompts of one creation time keep their catalog order and the submission, when it shares that time, comes after them (through CatalogTypes.SortItemsAppendStable and Common.SortDescStable) |
| MergeSubmission.MergedIds | scripts/merge-submission.js:30-37 | an id is in the merged catalog iff it was in the catalog or is the submission's |
| MergeSubmission.Workspace.Merge | scripts/merge-submission.js:6-58 | exit 0 iff the submission and catalog files exist and parse and the id is new; then the catalog holds the merged prompts and the same skills; on exit 1 the catalog file is untouched |
| MergeSubmission.Workspace.Run | scripts/merge-submission.js:60-68 | a missing argument exits 1 without writing; otherwise the outcome of the merge of the named file |
| CatalogTypes.SortKey | lib/marketplace.ts:33-51 | "popularity" and "downloads" rank by downloads, "rating" by the average rating, "newest" by the creation instant |
| CatalogTypes.SortItems | lib/marketplace.ts:33-51 | the result is a permutation of its input ordered by the policy's key, best first |
| CatalogTypes.SortItemsStable | lib/marketplace.ts:33-51 | the policy sort is stable: the items of each key keep their input order |
| CatalogTypes.SortItemsAppendStable | lib/marketplace.ts:33-51 | an element appended before the sort comes, among the elements of its key, after all of them, which keep their order |
| CatalogTypes.PopularityIsDownloads | lib/marketplace.ts:35-37 | sorting by "popularity" and by "downloads" gives the same sequence |
| CatalogTypes.SearchIgnoresCase | lib/marketplace.ts:13-21 | the search filter gives the same answer for a query and its lower-cased form |
| CatalogTypes.FindById | lib/marketplace.ts:106-112 | nothing exactly when no record has the id; otherwise the first record with the id |
| CatalogTypes.Arrange | lib/marketplace.ts:33-53 | a permutation of its input; sorted by the policy when one is given, unchanged otherwise |
| RootCatalog.Select | lib/marketplace.ts:9-31 | a record is kept iff it is in the catalog and every switched-on filter (category equality, case-insensitive search of title/description/tags, rating at least `minRating` when non-zero, a shared tag) accepts it; every occurrence of an accepted record is kept, none of the others |
| RootCatalog.SelectAppend | lib/marketplace.ts:9-31 | a record added at the end of the catalog is, when accepted, the last one selected: the selection keeps catalog order |
| RootCatalog.SelectNothingOn | lib/marketplace.ts:9-31 | with every filter off (empty strings, zero rating, empty tag list) the whole catalog is kept, in order |
| RootCatalog.Narrowed | lib/marketplace.ts:7-31 | narrowing the working copy by category, then search, then rating, then tags leaves exactly the selection, in catalog order |
| RootCatalog.Query | lib/marketplace.ts:6-54 | the narrowed working copy arranged by the sort policy; a record is in the result iff it is in the catalog and every switched-on filter accepts it, never more often than in the catalog |
| RootCatalog.GetPrompts | lib/marketplace.ts:6-54 | the prompts the filters accept, arranged by the sort policy; exactly the accepted prompts of the catalog |
| RootCatalog.GetSkills | lib/marketplace.ts:56-104 | the skills the filters accept, arranged by the sort policy; exactly the accepted skills of the catalog |
| RootCatalog.GetPromptById | lib/marketplace.ts:106-108 | the first prompt with that id, or nothing when there is none |
| RootCatalog.GetSkillById | lib/marketplace.ts:110-112 | the first skill with that id, or nothing when there is none |
| SuiteCatalog.SelectPrompts | netsuite-marketplace/suitecloud-learning-platform/lib/marketplace.ts:9-46 | a prompt is kept iff it is in the catalog and every switched-on filter accepts it: format, business area and target platform by equality, search, rating, tags, and a module filter that drops prompts without modules; every occurrence of an accepted prompt is kept |
| SuiteCatalog.SelectPromptsAppend | netsuite-marketplace/suitecloud-learning-platform/lib/marketplace.ts:9-46 | a prompt added at the end is, when accepted, the last one selected: the selection keeps catalog order |
| SuiteCatalog.SelectSkills | netsuite-marketplace/suitecloud-learning-platform/lib/marketplace.ts:71-100 | as for prompts, without a format or target-platform filter; every occurrence of an accepted skill is kept |
| SuiteCatalog.SelectSkillsAppend | netsuite-marketplace/suitecloud-learning-platform/lib/marketplace.ts:71-100 | a skill added at the end is, when accepted, the last one selected |
| SuiteCatalog.SortPolicy | netsuite-marketplace/suitecloud-learning-platform/lib/marketplace.ts:48-63 | a sort happens iff a policy other than "popularity" was asked for, and then it is that policy |
| SuiteCatalog.NarrowedPrompts | netsuite-marketplace/suitecloud-learning-platform/lib/marketplace.ts:7-46 | narrowing the working copy by format, business area, platform, search, rating, tags and modules, in that order, leaves exactly the selection |
| SuiteCatalog.GetPrompts | netsuite-marketplace/suitecloud-learning-platform/lib/marketplace.ts:6-66 | the selected prompts arranged by the sort policy; exactly the matching prompts of the catalog |
| SuiteCatalog.NarrowedSkills | netsuite-marketplace/suitecloud-learning-platform/lib/marketplace.ts:69-100 | narrowing the working copy by business area, search, rating, tags and modules leaves exactly the selection |
| SuiteCatalog.GetSkills | netsuite-marketplace/suitecloud-learning-platform/lib/marketplace.ts:68-120 | the selected skills arranged by the sort policy; exactly the matching skills of the catalog |
| SuiteCatalog.PopularityKeepsOrder | netsuite-marketplace/suitecloud-learning-platform/lib/marketplace.ts:48-63 | asking for "popularity" returns the filtered prompts in catalog order |
| SuiteCatalog.GetPromptById | netsuite-marketplace/suitecloud-learning-platform/lib/marketplace.ts:122-124 | the first prompt with that id, or nothing when there is none |
| SuiteCatalog.GetSkillById | netsuite-marketplace/suitecloud-learning-platform/lib/marketplace.ts:126-128 | the first skill with that id, or nothing when there is none |
| SuiteCatalog.SharedTagCount | netsuite-marketplace/suitecloud-learning-platform/lib/marketplace.ts:149-150 | the count is at most the candidate's tag count, and positive iff the candidate shares a tag with the seed |
| SuiteCatalog.TopRelated | netsuite-marketplace/suitecloud-learning-platform/lib/marketplace.ts:147-156 | as many candidates as `slice(0, limit)` keeps (a negative limit counts from the end), a sub-multiset of the candidates, ordered by shared tags then downloads, and ranked at least as high as every candidate left out; ties keep candidate order (Common.TopRankedStable) |
| SuiteCatalog.GetRelatedPrompts | netsuite-marketplace/suitecloud-learning-platform/lib/marketplace.ts:130-159 | [] for an unknown id; never the seed; a sub-multiset of the related prompts, each sharing a tag, business area, format or author with the seed; as many as the slice allows, best-ranked first, none left out ranked higher |
| SuiteCatalog.GetRelatedSkills | netsuite-marketplace/suitecloud-learning-platform/lib/marketplace.ts:161-189 | the same rules as for prompts without the format criterion, also a sub-multiset of the related skills |
| SuiteCatalog.AvailableAreas | netsuite-marketplace/suitecloud-learning-platform/lib/marketplace.ts:194-211 | the set filled in the loop, listed strictly ascending: exactly the areas of the items |
| SuiteCatalog.AvailableBusinessAreasFromPrompts | netsuite-marketplace/suitecloud-learning-platform/lib/marketplace.ts:194-200 | strictly ascending, and an area is listed iff some prompt has it |
| SuiteCatalog.AvailableBusinessAreasFromSkills | netsuite-marketplace/suitecloud-learning-platform/lib/marketplace.ts:205-211 | strictly ascending, and an area is listed iff some skill has it |
| SuiteCatalog.AreasDetermined | netsuite-marketplace/suitecloud-learning-platform/lib/marketplace.ts:194-211 | two strictly ascending lists of the same set are equal, so the listing depends on the set of areas alone |
| SubmitRoute.ParseFormat | app/api/prompts/submit/route.ts:27 | a format is recognised iff the text is one of the four format names, and then it is that format |
| SubmitRoute.ParsePlatform | app/api/prompts/submit/route.ts:58-67 | only "text-enhance", "prompt-studio", "advisor" and "mcp" are recognised |
| SubmitRoute.ParsePlatforms | app/api/prompts/submit/route.ts:58-67 | each name of a valid list maps, position by position, to its platform |
| SubmitRoute.TooShort | app/api/prompts/submit/route.ts:24 | no issue iff the text has at least one character; the issue does not stop the parse |
| SubmitRoute.TooLong | app/api/prompts/submit/route.ts:25 | no issue iff the text is within the maximum; the issue does not stop the parse |
| SubmitRoute.BoundedIssues | app/api/prompts/submit/route.ts:22-32 | no issue iff the field is a string of 1 to `max` characters (raw, before sanitizing); the parse stops iff it is missing or not a string |
| SubmitRoute.OptionalTextIssues | app/api/prompts/submit/route.ts:35-44 | no issue iff the field is absent or a string within its maximum (5000 for content and system prompt, 10000 for skill content); the parse stops iff it is present and not a string |
| SubmitRoute.FormatIssues | app/api/prompts/submit/route.ts:27 | no issue iff the format is a string naming one of the four formats; any issue stops the parse |
| SubmitRoute.NumberIssues | app/api/prompts/submit/route.ts:40-41 | no issue iff the field is absent or a number within its bounds (0 to 1 for the temperature, 1 to 4096 for the token limit); the parse stops iff it is present and not a number |
| SubmitRoute.ElementIssues | app/api/prompts/submit/route.ts:36 | no issue iff every element is a string; every other element gets its own issue, at the path of the field and its position, stopping the parse (also lines 68 and 71) |
| SubmitRoute.TextListIssues | app/api/prompts/submit/route.ts:36 | no issue iff the field is absent or an array of strings; any issue stops the parse (also line 68) |
| SubmitRoute.AreaIssues | app/api/prompts/submit/route.ts:47-57 | no issue iff the area is a non-empty string that is a prompt or a skill category id (either list); the parse stops iff it is missing or not a string |
| SubmitRoute.PlatformNameIssues | app/api/prompts/submit/route.ts:58-66 | no issue iff every element is one of the four platform names; each other element gets its own issue at its position, and stops the parse |
| SubmitRoute.PlatformIssues | app/api/prompts/submit/route.ts:58-67 | no issue iff the list is absent or names only the four platforms; any issue stops the parse |
| SubmitRoute.TagIssues | app/api/prompts/submit/route.ts:71 | no issue iff the tags are absent or at most 5 strings; the parse stops iff they are not an array of strings |
| SubmitRoute.EmailIssues | app/api/prompts/submit/route.ts:78-81 | no issue iff the address is a string, e-mail shaped and non-empty; the parse stops iff it is missing or not a string |
| SubmitRoute.TermsIssues | app/api/prompts/submit/route.ts:82-84 | no issue iff the terms flag is the boolean true; the parse stops iff it is missing or not a boolean |
| SubmitRoute.RequiredTextIssues | app/api/prompts/submit/route.ts:74-77 | no issue iff the field is a non-empty string (submitter name, also the CAPTCHA token at line 87); the parse stops iff it is missing or not a string |
| SubmitRoute.BasicIssues | app/api/prompts/submit/route.ts:21-32 | the title, format and description rules stop the parse iff one of these fields has the wrong type or the format is unknown |
| SubmitRoute.ContentIssues | app/api/prompts/submit/route.ts:34-44 | the content, variables, system prompt, temperature, token limit and skill content rules stop the parse iff one of them is present with the wrong type |
| SubmitRoute.ClassificationIssues | app/api/prompts/submit/route.ts:46-71 | the area, platform, tool and tag rules stop the parse iff one of these has the wrong type or names an unknown platform |
| SubmitRoute.SubmitterIssues | app/api/prompts/submit/route.ts:73-87 | the name, e-mail, terms and CAPTCHA token rules stop the parse iff one of these has the wrong type |
| SubmitRoute.CrossIssues | app/api/prompts/submit/route.ts:88-109 | no issue iff a skill names a skill category and any other format a prompt category |
| SubmitRoute.AbortedIffMisshapen | app/api/prompts/submit/route.ts:20-87 | the field rules stop the parse exactly when some field is missing or has the wrong type |
| SubmitRoute.FieldIssuesEmptyIff | app/api/prompts/submit/route.ts:20-87 | the field rules report nothing exactly when every field rule holds |
| SubmitRoute.IssuesEmptyIffAcceptable | app/api/prompts/submit/route.ts:20-109 | the schema reports no issue exactly when the body is an object, every field rule holds and the cross-field rule holds |
| SubmitRoute.MisshapenRefused | app/api/prompts/submit/route.ts:20-109 | a body with a missing or wrongly typed field is refused with the field issues alone: the cross-field rule does not run |
| SubmitRoute.TextValue | app/api/prompts/submit/route.ts:35 | the parsed optional string encodes back to the field as sent (also lines 39 and 44) |
| SubmitRoute.NumberValue | app/api/prompts/submit/route.ts:40-41 | the parsed optional number encodes back to the field as sent |
| SubmitRoute.Texts | app/api/prompts/submit/route.ts:36 | the parsed strings encode back to the array's elements, in order (also lines 68 and 71) |
| SubmitRoute.TextsValue | app/api/prompts/submit/route.ts:36 | the parsed optional list encodes back to the field as sent (also lines 68 and 71) |
| SubmitRoute.ValidatedOf | app/api/prompts/submit/route.ts:20-87 | from a well-typed body: title, description and name sanitized, format and platforms parsed, every other field as sent, unknown keys dropped |
| SubmitRoute.Validate | app/api/prompts/submit/route.ts:20-109 | valid iff acceptable; a rejection carries every issue of the schema; an accepted request has sanitized title, description and name, the parsed format and platforms, every other field as sent, an area of the category list the format calls for, the terms agreed and a non-empty token |
| SubmitRoute.TitleOfMaxLengthPasses | app/api/prompts/submit/route.ts:22-25 | a title of exactly 100 characters raises no issue |
| SubmitRoute.AngleOnlyTitleStoredEmpty | app/api/prompts/submit/route.ts:22-26 | an otherwise acceptable request titled "<>" passes and its stored title is "" |
| SubmitRoute.StatusFor | app/api/prompts/submit/route.ts:221-258 | 504 iff an Error whose message mentions "timeout" or "ETIMEDOUT"; 429 iff otherwise it mentions "rate limit"; 500 for everything else |
| SubmitRoute.TimeoutBeforeRateLimit | app/api/prompts/submit/route.ts:224-239 | a message mentioning both a time-out and the rate limit gives 504 |
| SubmitRoute.Publish | app/api/prompts/submit/route.ts:150-205 | the repository calls of the generated prompt come first (its id, creation instant and author stamp each from their own clock reading); only when they all succeed are the confirmation e-mail and the success response (url, number, message) produced, otherwise the failure's status |
| SubmitRoute.CheckCaptchaThenPublish | app/api/prompts/submit/route.ts:114-131 | the token is verified first; a reply whose `success` is anything but a literal `true` gives 400 "CAPTCHA verification failed"; a verification that throws gives 504, 429 or 500 with its text, as `StatusFor` picks from the message (lines 206-258); either way nothing else happens; only a literal `true` goes on to publish, and the request is accepted iff that and every repository call succeed |
| SubmitRoute.Post | app/api/prompts/submit/route.ts:133-260 | an unreadable body maps to its status; a schema failure gives 400 "Validation failed" with every issue and no effect; accepted iff the body is acceptable, the CAPTCHA says true and every repository call succeeds |
| Common.Toggle | components/marketplace/PromptSubmissionForm.tsx:147-157 | a present value is removed (every occurrence, so the list shrinks), an absent one appended at the end; every other value keeps its membership |
| Common.ToggleTwice | components/marketplace/PromptSubmissionForm.tsx:147-157 | toggling the same value twice restores every membership, and restores the list itself when the value was absent; the folder set of hooks/use-navigation-state.ts:47-55 toggles the same way |
| Common.ToggleNoDuplicates | components/marketplace/PromptSubmissionForm.tsx:552-561 | toggling keeps a duplicate-free list duplicate-free |
| SubmissionForm.RemoveIndex | components/marketplace/PromptSubmissionForm.tsx:107-112 | a valid index removes exactly one entry; any other index changes nothing |
| SubmissionForm.RemoveIndexSlices | components/marketplace/PromptSubmissionForm.tsx:107-112 | removal leaves the entries before and after the index, in order |
| SubmissionForm.EncodeReadBack | components/marketplace/PromptSubmissionForm.tsx:177-180 | the endpoint reads from the sent object exactly the form's fields and the token: each present value under its own key, an unset one absent |
| SubmissionForm.FormRequestShaped | components/marketplace/PromptSubmissionForm.tsx:19-58 | a body the form's schema accepts has every field of the type the endpoint's schema expects, so the endpoint never stops at a type error on it |
| SubmissionForm.EndpointStricter | components/marketplace/PromptSubmissionForm.tsx:19-58 | every body the endpoint's schema accepts also passes the form's schema |
| SubmissionForm.FormLooserOnArea | components/marketplace/PromptSubmissionForm.tsx:39 | a body the form accepts with a business area in neither category list is refused by the endpoint |
| SubmissionForm.FormState.constructor | components/marketplace/PromptSubmissionForm.tsx:62-90 | the registered inputs start at the form's default values (the four lists empty, every other input unset), with empty entry boxes, no token and no result |
| SubmissionForm.FormState.Enter | components/marketplace/PromptSubmissionForm.tsx:259-761 | typing into or selecting a registered input (title, format, description, area, content, system prompt, temperature, token limit, skill text, name, e-mail, terms box) replaces what the form holds for it; the lists are untouched |
| SubmissionForm.FormState.Values | components/marketplace/PromptSubmissionForm.tsx:92-96 | the values handed to the submit handler: every registered input as entered, and the four lists as the list handlers keep them |
| SubmissionForm.FormState.AddTag | components/marketplace/PromptSubmissionForm.tsx:99-104 | the trimmed entry is appended and the input cleared iff it is non-blank and fewer than five tags exist; otherwise nothing changes; never more than five tags |
| SubmissionForm.FormState.RemoveTag | components/marketplace/PromptSubmissionForm.tsx:107-112 | the tags lose exactly the entry at the index |
| SubmissionForm.FormState.AddVariable | components/marketplace/PromptSubmissionForm.tsx:115-120 | a non-blank trimmed entry is appended with no cap and the input cleared; a blank one changes nothing |
| SubmissionForm.FormState.RemoveVariable | components/marketplace/PromptSubmissionForm.tsx:123-128 | the variables lose exactly the entry at the index |
| SubmissionForm.FormState.AddMcpTool | components/marketplace/PromptSubmissionForm.tsx:131-136 | a non-blank trimmed entry is appended with no cap and the input cleared; a blank one changes nothing |
| SubmissionForm.FormState.RemoveMcpTool | components/marketplace/PromptSubmissionForm.tsx:139-144 | the tools lose exactly the entry at the index |
| SubmissionForm.FormState.TogglePlatform | components/marketplace/PromptSubmissionForm.tsx:147-157 | the platforms become their toggle by the value |
| SubmissionForm.FormState.ToggleMcpTool | components/marketplace/PromptSubmissionForm.tsx:552-561 | the tools become their toggle by the value |
| SubmissionForm.FormState.Submit | components/marketplace/PromptSubmissionForm.tsx:159-206 | nothing is sent unless the client schema accepts the values and a token is present (no token: the CAPTCHA message; nothing else changes); what is sent is the JSON object of the form values, the four lists taken from the form state, plus the token, so it never carries more than five tags; a success keeps the message and pull-request url and resets every registered input, so the values read afterwards are exactly the default values; a failure shows the reply's error or the default text; a network failure the network message; off the success path the registered inputs and the lists are kept, and the entry boxes and token are never touched |
| SubmissionForm.FormState.Receive | components/marketplace/PromptSubmissionForm.tsx:183-205 | the result the reply calls for; only on success are the registered inputs restored to the default values and the lists emptied; entry boxes and token kept (they are component state that `reset()` does not reach); no longer submitting |
| ContentTab.Tokens | components/marketplace/PromptContentTab.tsx:31-33 | the placeholder texts of the names, one per name: the matches keep their delimiters |
| ContentTab.ExtractInputVariables | components/marketplace/PromptContentTab.tsx:30-35 | no duplicates |
| ContentTab.ExtractInputVariablesBracketsFirst | components/marketplace/PromptContentTab.tsx:30-35 | the de-duplicated `[NAME]` placeholders come first, in their order of first appearance |
| ContentTab.ExtractInputVariablesComplete | components/marketplace/PromptContentTab.tsx:30-35 | a text is extracted iff it is a `[NAME]` or `${NAME}` placeholder (upper-case letters and `_` in both) occurring in the content |
| ContentTab.OfferedVariables | components/marketplace/PromptContentTab.tsx:37 | a supplied list, even an empty one, is used as it is; otherwise every placeholder extracted from the content is offered, and only those |
| ContentTab.CleanVar | components/marketplace/PromptContentTab.tsx:220 | the key keeps exactly the characters of the variable other than `[ ] $ { }` |
| ContentTab.CleanVarOfToken | components/marketplace/PromptContentTab.tsx:220 | the key of an extracted placeholder is its name |
| ContentTab.Assign | components/marketplace/PromptContentTab.tsx:55 | the entries keep their length (existing key) or gain exactly the new pair at the end |
| ContentTab.AssignLookup | components/marketplace/PromptContentTab.tsx:54-56 | after a change the key reads the new value and every other key reads what it read before |
| ContentTab.KeysAssign | components/marketplace/PromptContentTab.tsx:55 | the key order is kept; a new key is added at the end |
| ContentTab.AssignKeysUnique | components/marketplace/PromptContentTab.tsx:55 | keys stay free of repeats |
| ContentTab.SubstituteEmpty | components/marketplace/PromptContentTab.tsx:48-49 | an empty value leaves the text unchanged |
| ContentTab.SubstituteAbsent | components/marketplace/PromptContentTab.tsx:48-49 | a key whose placeholders do not occur leaves the text unchanged |
| ContentTab.SubstituteFillsBrackets | components/marketplace/PromptContentTab.tsx:48 | for a plain name and a non-empty value, every `[name]` put between parts that do not hold it becomes the value, and nothing else changes |
| ContentTab.SubstituteFillsDollars | components/marketplace/PromptContentTab.tsx:49 | for a plain name and a non-empty value, every `${name}` put between parts that do not hold it becomes the value, and nothing else changes |
| ContentTab.SubstituteKeeps | components/marketplace/PromptContentTab.tsx:48-49 | substituting one plain name keeps every `[other]` placeholder of another plain name |
| ContentTab.SubstituteSinglePass | components/marketplace/PromptContentTab.tsx:48-49 | each expression is applied once: for a plain name made of a prefix and a non-empty value, `[prefix[name]]` becomes `[name]`, which stays (name "key", value "y": "[ke[key]]" becomes "[key]") |
| ContentTab.PreviewKeepsUnentered | components/marketplace/PromptContentTab.tsx:44-52 | a `[name]` placeholder of the content whose plain name has no entry is still in the preview, whatever the other plain-named entries are |
| ContentTab.PreviewOfBlank | components/marketplace/PromptContentTab.tsx:44-52 | with only empty values the preview is the content itself |
| ContentTab.CopyText | components/marketplace/PromptContentTab.tsx:249 | a non-empty preview wins, otherwise the content; empty only when both are (also lines 268, 288, 293) |
| ContentTab.DownloadFilename | components/marketplace/PromptContentTab.tsx:155 | the title with each white-space run dashed (Common.DashWhitespaceJoin), lower-cased, then ".txt"; so no white space and no upper-case letter (also line 294) |
| ContentTab.ViewFor | components/marketplace/PromptContentTab.tsx:59 | text-enhance iff that platform; advisor iff that platform; mcp iff the mcp format without the text-enhance or advisor platform; general otherwise (also lines 165, 304, 426) |
| ContentTab.ContentTabState.constructor | components/marketplace/PromptContentTab.tsx:40-41 | no entered values and an empty preview |
| ContentTab.ContentTabState.HandleVariableChange | components/marketplace/PromptContentTab.tsx:54-56 | the key reads the new value, every other key is unchanged, the preview is untouched |
| ContentTab.ContentTabState.GeneratePreview | components/marketplace/PromptContentTab.tsx:44-52 | offered only in the advisor and general layouts (lines 235, 614); the entered values and the content are unchanged; the preview is the content after every entry in order |
| ContentTab.ContentTabState.Shared | components/marketplace/PromptContentTab.tsx:288 | a non-empty preview, otherwise the content (also line 293) |
| FilterBar.WithCategory | components/marketplace/FilterBar.tsx:26-28 | "all" clears the category, any other value selects it; no other field changes |
| FilterBar.WithMinRating | components/marketplace/FilterBar.tsx:37-42 | "all" clears the minimum rating, any other value sets the number it reads as; no other field changes |
| FilterBar.WithSort | components/marketplace/FilterBar.tsx:30-35 | the chosen order is set; no other field changes |
| FilterBar.WithSearch | components/marketplace/FilterBar.tsx:21-24 | an empty box clears the search, other text becomes it; no other field changes |
| FilterBar.BadgesClearCategoryAndRating | components/marketplace/FilterBar.tsx:112-129 | closing the category and rating badges of a record with no sort and no search leaves no active filter |
| FilterBar.SortBadgeStays | components/marketplace/FilterBar.tsx:130-137 | closing the sort badge sets the order to popularity, so the filters stay active and the badge stays shown |
| FilterBar.WithoutSort | components/marketplace/FilterBar.tsx:130-137 | the intended badge close: no order chosen, no other field changes |
| FilterBar.ClosingBadgesLeavesSearch | components/marketplace/FilterBar.tsx:49-51 | with the intended close, closing every badge leaves the filters active iff there is a search (also lines 110-137) |
| FilterBar.FilterBarState.constructor | components/marketplace/FilterBar.tsx:19 | the box starts with the record's search text, or empty |
| FilterBar.FilterBarState.HandleSearchChange | components/marketplace/FilterBar.tsx:21-24 | the box shows the text as typed; the record has a search iff the text is non-empty |
| FilterBar.FilterBarState.HandleCategoryChange | components/marketplace/FilterBar.tsx:26-28 | the record becomes the category update of the old one |
| FilterBar.FilterBarState.HandleSortChange | components/marketplace/FilterBar.tsx:30-35 | the record becomes the sort update of the old one |
| FilterBar.FilterBarState.HandleMinRatingChange | components/marketplace/FilterBar.tsx:37-42 | the record becomes the rating update of the old one |
| FilterBar.FilterBarState.CloseCategoryBadge | components/marketplace/FilterBar.tsx:117 | the category is cleared and nothing else changes |
| FilterBar.FilterBarState.CloseRatingBadge | components/marketplace/FilterBar.tsx:126 | the minimum rating is cleared and nothing else changes |
| FilterBar.FilterBarState.CloseSortBadge | components/marketplace/FilterBar.tsx:130-137 | the corrected close: no order chosen; the filters are then inactive iff category, rating and search are all off |
| FilterBar.FilterBarState.ClearFilters | components/marketplace/FilterBar.tsx:44-47 | an empty record and an empty box; no filter is active afterwards |
| NavigationState.Loaded | hooks/use-navigation-state.ts:17-29 | a loaded set has no duplicates; a stored array loads as exactly its members; nothing is loaded exactly when nothing is stored, the text is empty, parsing throws or the value is not iterable |
| NavigationState.Navigation.constructor | hooks/use-navigation-state.ts:12-14 | an empty set, not loaded, no interaction, the storage as found |
| NavigationState.Navigation.Save | hooks/use-navigation-state.ts:32-41 | before loading is done the storage is untouched; afterwards it holds the set |
| NavigationState.Navigation.Hydrate | hooks/use-navigation-state.ts:17-41 | a loadable stored value becomes the set, otherwise the set is kept; loading is marked done and the storage then holds the set; interaction is unchanged |
| NavigationState.Navigation.ToggleFolder | hooks/use-navigation-state.ts:43-63 | exactly that folder's membership flips, every other folder keeps its state, the set stays free of duplicates, and interaction is marked when asked |
| NavigationState.Navigation.ResetNavigation | hooks/use-navigation-state.ts:65-72 | no folder is expanded; the key is removed, or holds the empty set once loading is done |
| NavMain.Get | components/nav-main.tsx:62-63 | a value is found iff some pair has the name, and it is the value of the first such pair, no earlier pair having the name (also lines 69, 76) |
| NavMain.Pair | components/nav-main.tsx:61 | a piece without `=` is a name with an empty value; otherwise the piece is the name, `=`, the value, with no `=` in the name |
| NavMain.ParseQuery | components/nav-main.tsx:61 | no parsed name holds the separator `&` (also line 91) |
| NavMain.ParseQueryPieces | components/nav-main.tsx:61 | the parsed query is the pair of each non-empty `&`-separated piece, in order (`PairEach` of the filtered split; also line 91) |
| NavMain.PairEach | components/nav-main.tsx:61 | one pair per piece, in order: the i-th pair is `Pair` of the i-th piece |
| NavMain.PairsOfFilled | components/nav-main.tsx:61 | the pieces are read skipping the empty ones, each other one becoming its pair, in order |
| NavMain.Base | components/nav-main.tsx:60 | without a `?` the whole address; otherwise the part before the first `?`, which the address starts with followed by `?`; never holds `?` (also line 90) |
| NavMain.Query | components/nav-main.tsx:60 | empty without a `?`; otherwise the part after the first `?` up to the next, the address starting with the base, `?` and this part; never holds `?` (also line 90) |
| NavMain.Slug | components/nav-main.tsx:54 | the lower-cased text with each white-space run made one dash; so no white space and no upper-case letter |
| NavMain.SlugWords | components/nav-main.tsx:54 | non-empty words without white space, separated by white-space runs, give their lower-cased forms joined by single dashes |
| NavMain.FolderId | components/nav-main.tsx:53-55 | the group's slug, a dash, the title's slug: no white space and no upper-case letter; for words separated by white space, NavMain.FolderIdWords gives the value |
| NavMain.FolderIdWords | components/nav-main.tsx:53-55 | a folder id is the group's words then the title's, lower-cased and joined by single dashes ("My Group", "Sales Ops" give "my-group-sales-ops") |
| NavMain.SubMatches | components/nav-main.tsx:89-128 | a sub-item matches iff the path is its path and each of category, capability, module and sub that its address sets has the same current value |
| NavMain.IsCurrentFolder | components/nav-main.tsx:58-132 | a folder matches iff its own address matches (path, and its category if it sets one, otherwise its capability if it sets one) or one of its sub-items matches |
| NavMain.MatchNeedsPath | components/nav-main.tsx:66 | a folder matches only on its own path or on a sub-item's path (also line 98) |
| NavMain.PlainFolderMatchesOnPath | components/nav-main.tsx:81-84 | a folder setting neither a category nor a capability matches on its path whatever the parameters |
| NavMain.Targets | components/nav-main.tsx:138-147 | no toggled id was expanded when the effect ran, and every matching folder with sub-items that was not expanded is toggled |
| NavMain.ToggleEachKeeps | components/nav-main.tsx:142-145 | toggling ids that were not expanded never closes a folder |
| NavMain.ToggleEachOpens | components/nav-main.tsx:142-145 | toggling distinct ids that were not expanded opens exactly those |
| NavMain.ExpandOne | components/nav-main.tsx:139-146 | one folder: toggled iff it is wanted, without marking interaction |
| NavMain.AutoExpand | components/nav-main.tsx:135-150 | nothing happens before loading and mounting; afterwards the set is the snapshot with the targets toggled in order, no expanded folder is closed, interaction is not marked, and (targets distinct) every matching folder with sub-items ends expanded |
| NavMain.ExpansionOutcome | components/nav-main.tsx:135-150 | after the effect no folder that was expanded is closed, and with distinct targets every matching folder with sub-items is expanded |
| NavMain.ExpandAll | components/nav-main.tsx:139-148 | the loop over the items leaves the set as it was before the loop with the targets toggled in order, without marking interaction |
| SuiteNavMain.InitialOpenStates | netsuite-marketplace/suitecloud-learning-platform/components/nav-main.tsx:41-49 | a record exists exactly for the titles of entries with sub-items, and every record is open |
| SuiteNavMain.IsOpen | netsuite-marketplace/suitecloud-learning-platform/components/nav-main.tsx:75 | a folder without a record is shown open, otherwise as its record says |
| SuiteNavMain.ToggleOpen | netsuite-marketplace/suitecloud-learning-platform/components/nav-main.tsx:62-67 | the folder's record becomes the negation of its stored value, a missing record counting as closed; every other record is unchanged |
| SuiteNavMain.ToggleOpenMissingStaysOpen | netsuite-marketplace/suitecloud-learning-platform/components/nav-main.tsx:62-67 | a folder with no record is shown open before and after a toggle (also line 75) |
| SuiteNavMain.ToggleOpenFlipsRecorded | netsuite-marketplace/suitecloud-learning-platform/components/nav-main.tsx:62-67 | a folder with a record is shown flipped by a toggle (also line 75) |
| SuiteNavMain.ToggleShown | netsuite-marketplace/suitecloud-learning-platform/components/nav-main.tsx:62-67 | the intended toggle: the folder's shown state flips and every other folder's shown state stays (also line 75) |
| SuiteNavMain.ToggleShownTwice | netsuite-marketplace/suitecloud-learning-platform/components/nav-main.tsx:62-67 | two intended toggles of a folder show every folder as before |
| SuiteNavMain.ToggleAgreesOnInitialFolders | netsuite-marketplace/suitecloud-learning-platform/components/nav-main.tsx:41-49 | on a folder that has a record the written and the intended toggle give the same records (also lines 62-67) |
| SuiteNavMain.ItemDelay | netsuite-marketplace/suitecloud-learning-platform/components/nav-main.tsx:92 | no delay before the fade-in begins; afterwards 50 ms per preceding entry (also line 155) |
| SuiteNavMain.SubDelay | netsuite-marketplace/suitecloud-learning-platform/components/nav-main.tsx:114 | no delay unless the folder is open and the fade-in has begun; then the entry's delay plus 50 ms per sub-item up to this one (also line 127) |
| SuiteNavMain.SubItemsStagger | netsuite-marketplace/suitecloud-learning-platform/components/nav-main.tsx:127 | shown sub-items fade in after their folder, 50 ms apart |
| SuiteNavMain.SuiteNav.constructor | netsuite-marketplace/suitecloud-learning-platform/components/nav-main.tsx:41-52 | every folder starts shown open, records exist exactly for folders, no fade-in yet |
| SuiteNavMain.SuiteNav.FinishAnimation | netsuite-marketplace/suitecloud-learning-platform/components/nav-main.tsx:54-60 | the fade-in has begun |
| SuiteNavMain.SuiteNav.Toggle | netsuite-marketplace/suitecloud-learning-platform/components/nav-main.tsx:62-67 | the corrected toggle: the folder's shown state flips and every other folder's stays; on a folder with a record it is the code's toggle (also line 82) |
| Common.RoundedPercent | components/learning/ProgressTracker.tsx:71 | `Math.round(part / whole * 100)`: the nearest whole percentage, halves rounded up; within 0..100 when the part is at most the whole, 0 for none and 100 for all |
| ProgressTracker.StorageKey | components/learning/ProgressTracker.tsx:24 | the key is "progress-" followed by the path id, which it determines (also line 61) |
| ProgressTracker.StorageKeyInjective | components/learning/ProgressTracker.tsx:24 | different paths are stored under different keys (also line 61) |
| ProgressTracker.Fresh | components/learning/ProgressTracker.tsx:29-36 | one record per module, in module order, all in the given state (also lines 185-191, 202-208) |
| ProgressTracker.Updated | components/learning/ProgressTracker.tsx:50-59 | every record of the module takes the new state and time; every other record is kept; the length is kept |
| ProgressTracker.ModuleProgress | components/learning/ProgressTracker.tsx:64-66 | nothing iff no record has the module; otherwise the first record that has it |
| ProgressTracker.UpdatedModuleProgress | components/learning/ProgressTracker.tsx:50-66 | after an update the module's first record is the old one with the new state |
| ProgressTracker.CompletedCount | components/learning/ProgressTracker.tsx:70 | never more than the records |
| ProgressTracker.OverallProgress | components/learning/ProgressTracker.tsx:68-72 | 0 without a path or records; otherwise the rounded share of completed records over the path's modules, NaN or Infinity when the path has no modules |
| ProgressTracker.FreshCounts | components/learning/ProgressTracker.tsx:185-191 | fresh or reset records count no completed module; marked-all records count every module (also lines 202-208) |
| ProgressTracker.ResetAndMarkAllPercent | components/learning/ProgressTracker.tsx:68-72 | on a path with modules, reset shows 0% and mark-all 100% (also lines 183-214) |
| ProgressTracker.Tracker.constructor | components/learning/ProgressTracker.tsx:17-20 | the path is the first with the id; no records yet |
| ProgressTracker.Tracker.Load | components/learning/ProgressTracker.tsx:22-43 | a stored list is taken as it is; otherwise one fresh record per module of the path (none without a path) is shown and stored |
| ProgressTracker.Tracker.UpdateProgress | components/learning/ProgressTracker.tsx:45-62 | the records become the update of the old ones and are stored under the path's key |
| ProgressTracker.Tracker.Reset | components/learning/ProgressTracker.tsx:183-194 | every module gets a fresh incomplete record, stored under the path's key |
| ProgressTracker.Tracker.MarkAllComplete | components/learning/ProgressTracker.tsx:200-213 | every module gets a completed record at 100, stored under the path's key |
| Search.PathEntry | components/ui/Search.tsx:34-40 | a path result carries the path's id and title and links to the path's page |
| Search.ModuleEntry | components/ui/Search.tsx:49-55 | a module result is titled "path - module", carries the module's description and links to the module under its path |
| Search.ConceptEntry | components/ui/Search.tsx:66-72 | a concept result's description is the first hundred characters of the explanation (all of a shorter one) followed by "..."; it links to the concept |
| Search.ModuleHitsMembers | components/ui/Search.tsx:44-57 | the module hits of a path are exactly the entries of its modules whose title or description contains the query |
| Search.PathsHitsMembers | components/ui/Search.tsx:29-58 | the path hits are exactly the entries of matching paths and of matching modules of every path, a path's modules being searched whether or not the path matched |
| Search.ConceptHitsMembers | components/ui/Search.tsx:61-74 | the concept hits are exactly the entries of concepts whose title or explanation contains the query |
| Search.Results | components/ui/Search.tsx:22-77 | a blank or one-character query gives nothing; otherwise a prefix of the ordered hits of the lower-cased query, of at most ten, all of them when fewer than ten |
| Search.FirstTen | components/ui/Search.tsx:76 | a prefix of at most ten, the whole list when it is shorter |
| Search.ResultsAreHits | components/ui/Search.tsx:29-74 | every result is a path, module or concept entry whose title or text contains the lower-cased query |
| Search.PushModuleHits | components/ui/Search.tsx:44-57 | the loop appends the path's module hits in module order |
| Search.PushPathHits | components/ui/Search.tsx:30-57 | the path's entry when it matches, then its module hits |
| Search.CollectPathHits | components/ui/Search.tsx:29-58 | the loop collects the path hits in path order |
| Search.PushConceptHits | components/ui/Search.tsx:61-74 | the loop appends the concept hits in concept order after what is there |
| Search.ComputeResults | components/ui/Search.tsx:22-77 | the loops compute exactly the specified results |
| Search.SearchBox.constructor | components/ui/Search.tsx:18-20 | an empty query, closed, no results shown |
| Search.SearchBox.HandleChange | components/ui/Search.tsx:86-89 | the query is the typed text and results are shown iff it has at least two characters |
| Search.SearchBox.HandleFocus | components/ui/Search.tsx:79-84 | the box opens; results are shown if they were or the query has at least two characters |
| Search.SearchBox.HandleBlur | components/ui/Search.tsx:112 | the box closes |
| Search.PanelsExclusive | components/ui/Search.tsx:132 | the result list and the no-results note are never shown together, and a shown list belongs to a searchable query (also line 162) |
| LearningTypes.FindPath | components/learning/ProgressTracker.tsx:18-20 | nothing iff no path has the id; otherwise the first path of the list with that id |
| DeploymentSimulator.InitialSteps | netsuite-marketplace/suitecloud-learning-platform/components/interactive/DeploymentSimulator.tsx:14-45 | five steps, every one pending |
| DeploymentSimulator.Progressed | netsuite-marketplace/suitecloud-learning-platform/components/interactive/DeploymentSimulator.tsx:56-75 | while step i has a status, the earlier steps are completed and the later ones as before the run |
| DeploymentSimulator.WithStatus | netsuite-marketplace/suitecloud-learning-platform/components/interactive/DeploymentSimulator.tsx:58-62 | only the step at the index changes, and it takes the status (also lines 68-72) |
| DeploymentSimulator.InitialNotCompleted | netsuite-marketplace/suitecloud-learning-platform/components/interactive/DeploymentSimulator.tsx:14-45 | the success banner is off at the start (also line 216) |
| DeploymentSimulator.Simulator.constructor | netsuite-marketplace/suitecloud-learning-platform/components/interactive/DeploymentSimulator.tsx:48-50 | the five pending steps, not running, no current step |
| DeploymentSimulator.Simulator.RunDeployment | netsuite-marketplace/suitecloud-learning-platform/components/interactive/DeploymentSimulator.tsx:52-78 | the run shows each step running and then completed, in order, earlier steps completed and later ones untouched; it ends with every step completed (the banner on), past the last index and not running |
| DeploymentSimulator.Simulator.Reset | netsuite-marketplace/suitecloud-learning-platform/components/interactive/DeploymentSimulator.tsx:80-84 | the five pending steps again, not running, no current step, the banner off |
| CodePlayground.Classify | components/interactive/CodePlayground.tsx:65-77 | mixed iff the code contains both "import" and "define", ES6 iff only "import", AMD iff only "define", none iff neither |
| CodePlayground.LineCount | components/interactive/CodePlayground.tsx:64 | one more than the number of line breaks |
| CodePlayground.Analysis | components/interactive/CodePlayground.tsx:68-80 | the built-in report starts with the completion line and the line count of the code |
| CodePlayground.AnalysisWarnsOnMixed | components/interactive/CodePlayground.tsx:71-72 | the report warns of mixed module systems iff both words occur |
| CodePlayground.RunOutput | components/interactive/CodePlayground.tsx:55-83 | without a caller analysis the built-in report; a returned non-empty text is shown after the success line, otherwise "Syntax looks good!"; a throw shows the error's message, or "Unknown error" for a non-Error |
| CodePlayground.FindTemplate | components/interactive/CodePlayground.tsx:89 | nothing iff no template has the name; otherwise the first template with that name |
| CodePlayground.Playground.constructor | components/interactive/CodePlayground.tsx:36-39 | the initial code, no output, not running, no template selected |
| CodePlayground.Playground.HandleEditorChange | components/interactive/CodePlayground.tsx:43-47 | an undefined value keeps the code, any other becomes it |
| CodePlayground.Playground.StartRun | components/interactive/CodePlayground.tsx:49-51 | the run is on, the output says it is analysing, and the code the timer reads is the code of now |
| CodePlayground.Playground.FinishRun | components/interactive/CodePlayground.tsx:54-85 | the output is the run's output for the captured code and the run is over |
| CodePlayground.Playground.HandleTemplateSelect | components/interactive/CodePlayground.tsx:88-95 | a known template replaces the code, is selected and clears the output; an unknown name changes nothing |
| Rapid101.FindExercise | app/rapid-101/page.tsx:9-11 | nothing iff no exercise has the tutorial's id; otherwise the first exercise of the list with that id |
| Rapid101.PreviousStep | app/rapid-101/page.tsx:93 | one step back from a positive step, never below 0 |
| Rapid101.NextStep | app/rapid-101/page.tsx:100-104 | one step on before the last, never past the last |
| Rapid101.DisabledExactlyWhenStuck | app/rapid-101/page.tsx:93-105 | each button is disabled exactly where clicking it would leave the step where it is |
| Rapid101.StepsUndo | app/rapid-101/page.tsx:93-105 | away from the ends, Previous undoes Next and Next undoes Previous |
| Rapid101.ProgressPercent | app/rapid-101/page.tsx:47-49 | the percentage is within 0..100 and 100 on the last step |
| Rapid101.FullBeforeLastStepAt200 | app/rapid-101/page.tsx:47-49 | with 200 steps the step before the last already reads 100% |
| Rapid101.PercentMonotone | app/rapid-101/page.tsx:47-49 | the percentage never goes down as the step goes up |
| Rapid101.Render | app/rapid-101/page.tsx:16-115 | the not-found notice iff there is no exercise; a step outside the exercise cannot be rendered; otherwise that step with its label and percentage, Previous disabled iff on the first step, Next disabled and the simulator shown iff on the last; the marketplace copy renders by the same rules (app/marketplace/learn/rapid-101/page.tsx:16-113) |
| Rapid101.EndsOfTheTutorial | app/rapid-101/page.tsx:92-115 | the last step shows 100%, a disabled Next and the simulator; the first a disabled Previous, and the simulator only for a one-step exercise |
| Rapid101.Tutorial.constructor | app/rapid-101/page.tsx:9-14 | the exercise is the first with the tutorial's id and the step is 0 |
| Rapid101.Tutorial.Previous | app/rapid-101/page.tsx:93 | the step becomes the previous step and stays renderable; the marketplace copy has the same button (app/marketplace/learn/rapid-101/page.tsx:91) |
| Rapid101.Tutorial.Next | app/rapid-101/page.tsx:99-105 | the step becomes the next step and stays renderable; the marketplace copy has the same button (app/marketplace/learn/rapid-101/page.tsx:97-103) |
| Rapid101.FullOnlyAtLastStep | app/rapid-101/page.tsx:47-49 | below 200 steps the percentage reads 100 exactly on the last step |

## Left out

- The network: the CAPTCHA service, the mail service and the repository API are replies given in advance; request bodies, headers and time-outs are not modelled.
- Storage and files: the browser's storage is a map (or one stored value) and the merge script's files are a map from path to parsed content; write failures, quota errors and `JSON.parse` throwing on a corrupt progress record are not modelled.
- Clocks and randomness: instants and the base-36 random fragment of a submission id are parameters; the fragment's length is not fixed, because `substring(2, 7)` of a random number's base-36 text may be shorter than five characters.
- Timers and animation: the delays of `setTimeout` (the simulator's 1.5 s steps, the playground's 0.8 s run, the blur delay, the sidebar's fade-in timer) are not modelled; only the state changes they cause are, in order.
- Floating point: ratings, temperatures and the preview percentages are `real` or whole numbers; `parseFloat` is a parameter (the number an option's text reads as), and `Math.round` is modelled on whole-number ratios as round half up.
- Text encoding: strings are sequences of characters; UTF-16 surrogate pairs, Unicode case mapping beyond ASCII and Unicode white space beyond the listed characters are not modelled.
- The schema library: the e-mail syntax check is a parameter (`Rules.emailOk`). Issues carry the path and the message text of version 3 of the library (the schema's own messages, and the library's defaults for a missing field, a wrong type, an enumeration and a bound); issue codes and the other issue fields (`expected`, `received`, `minimum`, `inclusive`) are not modelled.
- JSON numbers are reals: a body number is never NaN or infinite, and the library's integer and finiteness checks are not used by the schema.
- SubmissionForm.ClientAcceptable: a number box left empty reads as NaN, which the client schema rejects with "Expected number, received nan"; the model has no NaN, so a box is either never filled (absent) or holds a number.
- Regular expressions are modelled by hand-written scanners for the patterns the sources use.
- ContentTab.Substitute: the preview builds its two regular expressions from the variable name without escaping it, and the model replaces the name literally. The two agree for a name that satisfies `ContentTab.PlainKey`. For other names the handler differs: a name with a pattern character such as "Date (MM/DD)" matches other text or nothing, and a name such as "C++" makes the expression invalid, so pressing the button throws and the preview stays as it was. The special `$` patterns of a replacement value (`$&`, `$$`, `` $` ``, `$'`) are not modelled: a value is inserted as written. `Object.entries` lists integer-like names ("1", "42") before the others, so the model's order of entries (insertion order) is that of the handler only when no name is integer-like, which `PlainKey` also requires.
- URL handling: `URLSearchParams` percent-decoding and `+` as a space are not modelled; a query is split at `&` and `=` only.
- ContentTab.ContentTabState.GeneratePreview: the preview is computed from the values entered when the button is pressed; React's batching of state updates is not modelled.
- Rendering: JSX markup, styles, icons, 3D scenes, modals, cards and the pages that only call the query engines with fixed filters are not modelled.
- CodePlayground: copying to the clipboard and the editor component itself are not modelled.
- MergeSubmission: the script's console output and its use of `process.exit` are modelled as an exit code only.
- Rapid101: the exercise's estimated time, difficulty and hints are shown as they are and not modelled.

## Findings

| source | as written | input that shows it | evidently intended | confidence | as-written member | corrected member |
|---|---|---|---|---|---|---|
| components/marketplace/FilterBar.tsx:135 | closing the sort badge chooses the "popularity" order | any filters, then close the "Sort" badge: the record has `sortBy = "popularity"`, the badge stays and the filters stay active | closing the badge removes the sort | medium, not executed | FilterBar.SortBadgeStays | FilterBar.WithoutSort |
| netsuite-marketplace/suitecloud-learning-platform/components/nav-main.tsx:62-67 | a toggle negates the stored record, and a missing record counts as closed although it is shown open | a folder whose title has no record (its items gained sub-items after the first render): the first click leaves it shown open | a toggle flips what is shown | low, not executed | SuiteNavMain.ToggleOpenMissingStaysOpen | SuiteNavMain.ToggleShownTwice |
