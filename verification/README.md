# Jira issue-key linter core, modelled in Dafny

This project models the decision logic of a pull-request linter that links
branches to Jira issues:

- **Issue-key extraction** (`Jira.getJIRAIssueKeys`). A branch name gives zero
  or one issue keys. The name may open with one branch-type prefix segment,
  such as `feature/`, `fix/` or `chore/`. The key must sit right at the start,
  or right after that one segment. A key is a letter, then letters or digits,
  then `-`, then one or more digits. It must be followed by `-`, `/` or the end
  of the name. The project part is upper-cased and the number is kept as
  written. Nothing later in the name is ever looked at.
- **Label rendering** (`Jira.getLabelsForDisplay`). Each label becomes
  `<a href="URL" title="NAME">NAME</a>`, and the links are joined by `", "`.
- **Status validation** (`Jira.isIssueStatusValid`). Every issue passes when
  validation is off. When it is on, an issue passes exactly when its status is
  one of the expected statuses, compared exactly.

The implementation file of these three operations is not part of this model.
Their behaviour is taken from the assertions in `__tests__/jira.test.ts`, and
every assertion on them there is proved as a lemma.

## Layout

| file | module | contents |
|---|---|---|
| `wrappers.dfy` | `Wrappers` | `Option` |
| `chars.dfy` | `Chars` | ASCII character classes (`[A-Za-z]`, `[0-9]`, `\w`) and `toUpperCase` |
| `issue.dfy` | `Issue` | `IssueKey`, `Label`, `IssueDetails` (the `JIRADetails` record) |
| `key_extractor.dfy` | `KeyExtractor` | the declarative key rule (`Splits`), the left-to-right matcher (`Scan`), `ExtractKey`, `GetIssueKeys` and their properties |
| `key_extractor_vectors.dfy` | `KeyExtractorVectors` | one lemma per branch name in the extraction tests |
| `labels.dfy` | `Labels` | `GetLabelsForDisplay`, the reference `Join`/`Markups`, and the rendering properties |
| `status.dfy` | `Status` | `IsIssueStatusValid` and its properties |

The extractor is specified twice, and the two are proved to agree.
`KeyExtractor.Splits(branch, m)` says declaratively that `branch` is
`prefix + project + "-" + number + rest`, with each part of the required shape.
`KeyExtractor.Scan` is the deterministic matcher: it finds the end of the
prefix word, then the end of the project run, then the end of the digit run.
`ScanComplete` proves that every valid cut is the one the matcher finds.
It follows that the key at the anchor is unique, and that the optional prefix
never needs backtracking: a name that opens with `word/` cannot also have a key
at position 0.

## Model

| member | source | states |
|---|---|---|
| `KeyExtractor.GetIssueKeys` | __tests__/jira.test.ts:10-59 | at most one key is returned; the result is empty exactly when no valid cut (optional prefix, key, boundary) exists; every returned string is a canonical `PROJECT-NUMBER` key |
| `KeyExtractor.ExtractKey` | __tests__/jira.test.ts:10-59 | a key found is canonical and comes from a valid cut of the branch name, upper-cased; no key is found only when no valid cut exists |
| `KeyExtractor.ScanComplete` | __tests__/jira.test.ts:44-47 | every valid cut of a branch name is the one the matcher finds, so a name has at most one key at its anchor |
| `KeyExtractor.KeyAtAnchorExtracted` | __tests__/jira.test.ts:11-20 | a key at position 0 or after one prefix segment, followed by `-`, `/` or the end, is returned upper-cased as the only element |
| `KeyExtractor.KeyStart` | __tests__/jira.test.ts:17-20 | the key may start at 0 or right after a leading prefix segment (word characters then `/`) |
| `KeyExtractor.Locate` | __tests__/jira.test.ts:11-15 | a located key cuts the name into optional prefix, letter-led project run, `-`, digit run and a boundary |
| `KeyExtractor.RunEnd` | __tests__/jira.test.ts:28-29 | the scan stops at the end of the longest run of one character class |
| `KeyExtractor.CanonicalRoundTrip` | __tests__/jira.test.ts:13 | extraction from the text of a canonical key gives back that key |
| `KeyExtractor.CanonicalWithPrefixRoundTrip` | __tests__/jira.test.ts:13-20 | the same after any one prefix segment and before any boundary text |
| `KeyExtractor.SecondPrefixNotSkipped` | __tests__/jira.test.ts:17-20 | only one prefix segment is skipped: after two segments nothing is found |
| `KeyExtractor.TextAfterBoundaryIgnored` | __tests__/jira.test.ts:32-47 | appending text after the boundary that follows the key never changes the result |
| `KeyExtractor.FreeTextBeforeKeyIgnored` | __tests__/jira.test.ts:49-53 | a word then `-` then a non-digit at the anchor gives the empty result, whatever key-shaped text follows |
| `KeyExtractor.CaseInsensitive` | __tests__/jira.test.ts:22-25 | upper-casing the whole branch name leaves the extracted key unchanged |
| `KeyExtractor.LocateUpper` | __tests__/jira.test.ts:22-25 | the matcher finds the key at the same positions in a name and in its upper-cased form |
| `Chars.UpperChar` | __tests__/jira.test.ts:23-25 | upper-casing never yields a lower-case letter, maps `a`-`z` to `A`-`Z`, fixes every other character and keeps each character class |
| `KeyExtractorVectors.KeyAtStartAlone` | __tests__/jira.test.ts:13 | `MOJO-6789` yields `MOJO-6789` |
| `KeyExtractorVectors.KeyAtStartThenSlash` | __tests__/jira.test.ts:14 | `MOJO-6789/task_with_underscores` yields `MOJO-6789` |
| `KeyExtractorVectors.KeyAtStartThenDash` | __tests__/jira.test.ts:15 | `MOJO-6789-task_with_underscores` yields `MOJO-6789` |
| `KeyExtractorVectors.KeyAfterFeaturePrefix` | __tests__/jira.test.ts:18 | `feature/MOJO-6789-some-description` yields `MOJO-6789` |
| `KeyExtractorVectors.KeyAfterFixPrefix` | __tests__/jira.test.ts:19 | `fix/ES-43-login-protocol` yields `ES-43` |
| `KeyExtractorVectors.KeyAfterChorePrefix` | __tests__/jira.test.ts:20 | `chore/MOJO-6789-task_with_underscores` yields `MOJO-6789` |
| `KeyExtractorVectors.LowerCaseMojo` | __tests__/jira.test.ts:23 | `feature/mojo-123-description` yields `MOJO-123` |
| `KeyExtractorVectors.LowerCaseEsch` | __tests__/jira.test.ts:24 | `feature/esch-100-new-feature` yields `ESCH-100` |
| `KeyExtractorVectors.LowerCaseEs` | __tests__/jira.test.ts:25 | `fix/es-43-login-fix` yields `ES-43` |
| `KeyExtractorVectors.ProjectWithTrailingDigit` | __tests__/jira.test.ts:28 | `feature/PB2-1-some-task` yields `PB2-1` |
| `KeyExtractorVectors.ProjectWithInnerDigit` | __tests__/jira.test.ts:29 | `feature/P2P-99-peer-update` yields `P2P-99` |
| `KeyExtractorVectors.LaterStepNumberIgnored` | __tests__/jira.test.ts:34 | `feature/MOJO-123-add-step-2` yields `MOJO-123` |
| `KeyExtractorVectors.LaterKeyShapeIgnored` | __tests__/jira.test.ts:35 | `feature/MOJO-123-es-43-thing` yields `MOJO-123` |
| `KeyExtractorVectors.LaterVersionTagIgnored` | __tests__/jira.test.ts:36 | `fix/ES-43-update-v2-config` yields `ES-43` |
| `KeyExtractorVectors.VersionNumbersIgnored` | __tests__/jira.test.ts:39 | `MOJO-123-update-node-24-0-3` yields `MOJO-123` |
| `KeyExtractorVectors.VersionNumbersAfterPrefixIgnored` | __tests__/jira.test.ts:40 | `feature/MOJO-123-update-node-24-0-3` yields `MOJO-123` |
| `KeyExtractorVectors.ReleaseNumbersIgnored` | __tests__/jira.test.ts:41 | `chore/GAL-99-migrate-react-18-to-19` yields `GAL-99` |
| `KeyExtractorVectors.OnlyFirstKeyReturned` | __tests__/jira.test.ts:46 | `MOJO-6789/task_with_underscores-ES-43` yields only `MOJO-6789` |
| `KeyExtractorVectors.KeyAfterFreeTextIgnored` | __tests__/jira.test.ts:51 | `feature/newFeature--MOJO-6789` yields nothing |
| `KeyExtractorVectors.KeyAtEndAfterPrefixIgnored` | __tests__/jira.test.ts:52 | `fix/login-protocol-ES-43` yields nothing |
| `KeyExtractorVectors.KeyAtEndIgnored` | __tests__/jira.test.ts:53 | `nudge-live-chat-users-Es-172` yields nothing |
| `KeyExtractorVectors.PrefixWithoutKey` | __tests__/jira.test.ts:56 | `feature/missingKey` yields nothing |
| `KeyExtractorVectors.EmptyBranch` | __tests__/jira.test.ts:57 | the empty name yields nothing |
| `Labels.GetLabelsForDisplay` | __tests__/jira.test.ts:99-108 | the result, built left to right, is every label's link in order with `", "` between neighbours |
| `Labels.JoinAppend` | __tests__/jira.test.ts:100-106 | joining one more part adds exactly the separator and that part at the end |
| `Labels.JoinConcat` | __tests__/jira.test.ts:100-106 | joining two non-empty runs of parts puts exactly one separator between them |
| `Labels.RenderConcat` | __tests__/jira.test.ts:100-106 | the rendering of two label lists in a row is their renderings joined by `", "` |
| `Labels.EmptyAndSingle` | __tests__/jira.test.ts:100-106 | no labels render as the empty string, one label as its link alone |
| `Labels.MarkupSpaces` | __tests__/jira.test.ts:100 | a link holds exactly two spaces of its own besides those in the label's name and URL |
| `Labels.RenderSpaces` | __tests__/jira.test.ts:100-106 | the rendering holds no space beyond two per link, one per separator and those inside names and URLs |
| `Labels.TwoLabelsVector` | __tests__/jira.test.ts:101-106 | the labels `one` and `two` render as the exact string of the test |
| `Status.IsIssueStatusValid` | __tests__/jira.test.ts:120-147 | with validation off every issue is valid; with it on, valid exactly when some expected status equals the issue's status |
| `Status.Includes` | __tests__/jira.test.ts:133-140 | the scan of the expected statuses succeeds exactly when the status is one of them |
| `Status.OnlyStatusMatters` | __tests__/jira.test.ts:120-147 | issues that differ only outside their status get the same verdict |
| `Status.OnlyExpectedSetMatters` | __tests__/jira.test.ts:133-144 | expected-status lists with the same elements, in any order or multiplicity, give the same verdict |
| `Status.MoreExpectedStaysValid` | __tests__/jira.test.ts:137-141 | adding expected statuses never turns a valid issue invalid |
| `Status.StatusVectors` | __tests__/jira.test.ts:132-146 | `Assessment` is rejected and `In Progress` accepted against `In Test`, `In Progress`; with validation off `Assessment` passes; `in progress` is rejected |

## Interpretation

- The prefix segment is one or more word characters (`\w`: ASCII letters,
  digits, `_`) followed by `/`. The tests only show letter words (`feature`,
  `fix`, `chore`). With `\w`, a name that opens with `word/` can never also
  have a key at position 0, because the key needs `-` where the word has `/`
  or `_`. So the prefix is stripped whenever it is present. No backtracking
  alternative is needed, and `ScanComplete` proves this.
- Letters are ASCII `A`-`Z` and `a`-`z`, as in a JavaScript regular expression
  without the `u` flag. Upper-casing maps only `a`-`z`.
- The expected statuses are a list, as the tests pass an array. Membership is
  exact string equality.

## Left out

- `getPRDescription`, `getNoIdComment`, `getInvalidIssueStatusComment`: their templates are not part of this model. The tests only check that the output contains certain substrings (__tests__/jira.test.ts:73-95, 149-153), so any template would be invented.
- The hidden-marker merge of PR descriptions and `GitHub.shouldUpdatePRDescription`: the GitHub client is not part of this model.
- The Jira HTTP client and `getTicketDetails`: these are network I/O and authentication (the test is skipped in the source).
- `IssueDetails.estimate` is modelled as `Option<int>`. A JavaScript number can be fractional, but floating point is not modelled. No modelled operation reads the estimate.
- `console.log` mocking and the rest of the Jest scaffolding.
