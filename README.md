# gitlang: per-language line counts of a GitHub user's pushes

`gitlang.py` walks the public event feed of a GitHub user. It keeps the
push events made by that user, and within them the commits whose author name
is that user. For each such commit it fetches the commit detail and
classifies every changed file by extension. It then sums the lines added and
deleted per language. Languages whose two totals are both zero are dropped.

This project is a Dafny model of that core, with proofs about the model.
The modules follow the program's parts:

- `Languages` (`languages.dfy`) holds the extension table and
  `FileCommitData.get_language`. It includes a model of Python's
  `str.split` for one separator character.
- `Tracking` (`tracking.dfy`) holds the file records and the `StatTracker`
  class, whose fields are updated in place. It also defines `Totals`, the
  specification of what a tracker holds after a run of updates.
- `Events` (`events.dfy`) holds the feed pages and the `EventIterator`
  class. The class keeps a buffer of events and the current page's Link
  header, refills the buffer by following `rel="next"` links, and stops
  when there is no such link.
- `GitLang` (`gitlang.dfy`) holds `get_stats` as an imperative method.
  It loops over the iterator, the commits and the files, updating one
  `StatTracker` object per language. The method is proved equal to `Stats`,
  a pure statement of the result.
- `StatsFacts` (`stats_facts.dfy`) proves what that result means:
  - only the files of commits by the user, inside pushes by the user, are counted;
  - which languages appear in the result, and with what totals;
  - the order of events and of files does not matter;
  - a chain of pages reads as their concatenation;
  - a few concrete feeds and their reports.
- `Seqs` (`seqs.dfy`) and `Wrappers` (`wrappers.dfy`) are small shared
  helpers: splitting a permutation, and `Option`/`Result`.

The network is a parameter. `Session.get` maps a URL to a response: a
success flag plus a page of parsed events and parsed Link entries.
`Session.commitFiles` maps a commit URL to the commit's `files` list, or to
`None` when the JSON has no `files` key. `Session.authLogin` is
`session.auth[0]`.

Four facts about the code shape the model:

- Every page and every commit detail is fetched one after another, with no
  concurrency, retries or rate-limit handling.
- Only the first page's status is checked (`raise_for_status`). Every
  later page is taken to decode to a list of events (see "## Left out").
  A commit detail whose request fails has no `files` key in its error body,
  so that commit silently contributes no files (`CommitFiles` gives none,
  and `IgnoredCommit` shows the effect).
- The extension is looked up exactly as written, so `Main.PY` is not Python.
- Only events whose type is the string `PushEvent` are kept.

## Model

| member | source | states |
|---|---|---|
| Languages.LanguagesAre | gitlang.py:9-19 | the table yields exactly the eight names C, C++, Haskell, Java, Javascript, Python, Rust and SQL |
| Languages.Split | gitlang.py:74 | like Python's `split`, splitting always gives at least one piece |
| Languages.JoinSplit | gitlang.py:74 | splitting on `.` loses nothing: joining the pieces with `.` gives back the name |
| Languages.SplitPiecesAvoidSep | gitlang.py:74 | no piece of a split contains the separator |
| Languages.JoinLast | gitlang.py:74 | with two or more pieces, the last piece follows the last separator |
| Languages.ExtensionIsAfterLastDot | gitlang.py:74 | `split('.')[-1]` is the dot-free suffix after the last `.`, or the whole name when there is no `.` |
| Languages.ExtensionOfDotted | gitlang.py:74 | a name ending in `.` and a dot-free tail has that tail as its extension |
| Languages.ExtensionOfUndotted | gitlang.py:74 | a name without `.` is its own extension |
| Languages.Extension | gitlang.py:74 | `split('.')[-1]`, the key `get_language` looks up; it has no contract of its own, and `ExtensionIsAfterLastDot`, `ExtensionOfDotted` and `ExtensionOfUndotted` describe it |
| Languages.Language | gitlang.py:73-74 | `get_language` gives a language exactly when the extension is a table key, and then it is that key's table entry (a non-empty table value) |
| Languages.DottedName | gitlang.py:73-74 | a name of the form `stem.ext`, with `ext` free of `.`, has the language `ext` maps to in the table, and none when `ext` is not a key |
| Languages.UnmappedExtensionExamples | gitlang.py:73-74 | any `*.md` file has no language, and neither has `*.PY`, because the lookup is case-sensitive |
| Languages.MappedExtensionExamples | gitlang.py:73-74 | `*.py` is Python; `*.js` and `*.jsx` are both Javascript |
| Languages.LastDotExample | gitlang.py:73-74 | `*.py.bak` has no language, because only the text after the last `.` counts |
| Languages.UndottedName | gitlang.py:73-74 | a name without `.` has a language exactly when the whole name is a table key, and then it is that key's entry |
| Languages.UndottedExample | gitlang.py:73-74 | a file named `c` is C |
| Tracking.SumAppend | gitlang.py:61-63 | the totals of two runs of updates, one after the other, are the sums of each run's totals |
| Tracking.SumPermutation | gitlang.py:61-63 | the totals do not depend on the order of the updates |
| Tracking.SumIsZero | gitlang.py:61-63 | the totals are (0, 0) exactly when every record adds and deletes nothing |
| Tracking.Sum | gitlang.py:61-63 | the (added, deleted) a tracker reaches from (0, 0) after updates with the given records; it has no contract of its own, and `SumAppend`, `SumPermutation` and `SumIsZero` describe it |
| Tracking.OfLanguage | gitlang.py:38-40 | the records `get_stats` passes to one language's tracker, in order; it has no contract of its own, and `OfLanguageAppend`, `OfLanguageCount` and `OfLanguagePermutation` describe it |
| Tracking.Totals | gitlang.py:38-40 | what one language's tracker holds after the given records; it has no contract of its own, and `TotalsAppend`, `TotalsSnoc`, `TotalsOfOne`, `TotalsPermutation` and `TotalsIsZero` describe it |
| Tracking.OfLanguageAppend | gitlang.py:38-40 | picking a language's records from a concatenation picks from each part |
| Tracking.OfLanguageCount | gitlang.py:38-40 | a record is kept for a language as often as it occurs when it is classified as that language, and never otherwise |
| Tracking.OfLanguagePermutation | gitlang.py:38-40 | reordering the records reorders what is kept for each language, and no more |
| Tracking.TotalsAppend | gitlang.py:36-40 | a language's totals over two runs of records add up |
| Tracking.TotalsSnoc | gitlang.py:38-40 | one more record changes only its own language's totals, by its additions and deletions |
| Tracking.TotalsOfOne | gitlang.py:38-40 | a single record counts for its own language only |
| Tracking.TotalsOfTwo | gitlang.py:37-40 | two records of different languages each count only for their own language |
| Tracking.TotalsOfSameLanguage | gitlang.py:37-40 | two records of one language count as one record with both their changes |
| Tracking.TotalsPermutation | gitlang.py:36-40 | a language's totals do not depend on the order of the records |
| Tracking.TotalsIsZero | gitlang.py:38-41 | a language's totals are (0, 0) exactly when no record classified as it adds or deletes a line |
| Tracking.StatTracker.constructor | gitlang.py:57-59 | a new tracker starts at (0, 0) |
| Tracking.StatTracker.Update | gitlang.py:61-63 | `update` adds the record's additions to `added` and its deletions to `deleted`, and changes nothing else |
| Events.IsNext | gitlang.py:99 | a Link entry whose `rel` is `next`; it has no contract of its own, and `NextUrlIsFirstNext` describes its use |
| Events.NextUrl | gitlang.py:97-102 | the URL `refresh` follows, or none; it has no contract of its own, and `NextUrlIsFirstNext` describes it |
| Events.Rest | gitlang.py:94-106 | the events of the pages `refresh` reaches by following `next` links, in order; it has no contract of its own, and `RestFuelIrrelevant`, `ChainIsConcatenation` and the contracts of `EventIterator.Next` and `EventIterator.Refresh` describe it |
| Events.NextUrlIsFirstNext | gitlang.py:97-102 | the URL `refresh` follows is that of the first link with relation `next`; there is none exactly when no link has relation `next` |
| Events.RestFuelIrrelevant | gitlang.py:94-106 | once the chain of `next` links ends, allowing more pages changes nothing |
| Events.ChainIsConcatenation | gitlang.py:88-106 | over N pages, each linking to the next and the last linking nowhere, the first page's events plus those reached by `next` links are the concatenation of all N pages' events |
| Events.EventIterator.constructor | gitlang.py:79-83 | the iterator starts with the first page's events and Link header, and will produce those events followed by the rest of the chain |
| Events.EventIterator.Open | gitlang.py:79-83 | `EventIterator(session, response)` fails exactly when the first response is not a success (`raise_for_status`); otherwise it is a fresh iterator over the first page's events followed by the rest of the chain |
| Events.EventIterator.Next | gitlang.py:88-92 | `__next__` returns the first event still to come and drops it; it stops (`StopIteration`) exactly when none is left; empty pages are skipped |
| Events.EventIterator.Refresh | gitlang.py:94-106 | `refresh` succeeds exactly when some link has relation `next`; the fetched page's events and Link header then replace the current ones; otherwise nothing changes |
| GitLang.EventsUrl | gitlang.py:25 | the URL of a user's event feed; it has no contract of its own, and `FeedScenario` uses it |
| GitLang.CommitUrl | gitlang.py:35 | the URL of a commit's detail; it has no contract of its own, and `IgnoredCommit` and `FeedScenario` use it |
| GitLang.Target | gitlang.py:23 | a missing or empty user means the session's own login; otherwise the given user |
| GitLang.IsCountedEvent | gitlang.py:28-29 | an event is kept when its type is `PushEvent` and its actor is the target user; it has no contract of its own, and `IgnoredEvent` and `CountedFilesOrigin` describe it |
| GitLang.IsCountedCommit | gitlang.py:32-33 | a commit is kept when its author name is the target user; it has no contract of its own, and `IgnoredCommit` and `CommitsFilesOrigin` describe it |
| GitLang.CommitFiles | gitlang.py:35-36 | a commit detail's `files` list, or no files when the key is missing (`.get('files', [])`); it has no contract of its own, and `IgnoredCommit` describes it |
| GitLang.CommitsFiles | gitlang.py:31-36 | the files of a push's commits by the target user, in order; it has no contract of its own, and `CommitsFilesSnoc`, `CommitsFilesAppend` and `CommitsFilesOrigin` describe it |
| GitLang.EventFiles | gitlang.py:28-36 | the files one event contributes: those of its counted commits when it is a counted push, none otherwise; it has no contract of its own, and `IgnoredEvent` and `CountedFilesSnoc` describe it |
| GitLang.CountedFiles | gitlang.py:27-36 | the files the event loop passes to the trackers, in order; it has no contract of its own, and `CountedFilesAppend`, `CountedFilesCons`, `CountedFilesOrigin` and `CountedFilesPermutation` describe it |
| GitLang.CommitsFilesSnoc | gitlang.py:31-36 | the next commit adds its files when its author is the target user, and nothing otherwise |
| GitLang.CountedFilesAppend | gitlang.py:27-36 | the files counted over two stretches of the feed are those of each stretch in turn |
| GitLang.CountedFilesSnoc | gitlang.py:27-29 | the next event adds its files; an event that is not a push by the target user adds nothing |
| GitLang.CountedFilesCons | gitlang.py:27-29 | the files of a feed are those of its first event followed by those of the rest |
| GitLang.CountedFilesStep | gitlang.py:27-29 | one round of the event loop moves the first remaining event's files into the counted ones |
| GitLang.Prune | gitlang.py:41 | a language is kept exactly when its totals are not both zero, with its totals unchanged |
| GitLang.PruneIsReport | gitlang.py:41 | pruning one total per table language gives the report of the counted files |
| GitLang.Report | gitlang.py:37-41 | the pruned per-language totals over a run of files; it has no contract of its own, and `PruneIsReport`, `ReportContents` and `ReportPermutation` describe it |
| GitLang.NewTrackers | gitlang.py:24 | one fresh tracker per table language, no two the same object, all at (0, 0) |
| GitLang.CountFile | gitlang.py:37-40 | a file with a language updates that language's tracker only; every tracker then holds its language's totals over the files so far |
| GitLang.CountFiles | gitlang.py:36-40 | after a commit's files, every tracker holds its language's totals over the files so far |
| GitLang.CountEvent | gitlang.py:28-40 | a push by the target user adds the files of its commits by the target user; any other event changes no tracker |
| GitLang.CountEvents | gitlang.py:26-40 | the loop leaves the iterator exhausted (nothing remaining), and every tracker then holds its language's totals over all counted files of the feed |
| GitLang.Stats | gitlang.py:22-41 | what `get_stats` returns: a failure when the first page is not a success, otherwise the report over the counted files of the whole feed; it has no contract of its own, and `GetStats`, `StatsOfChain`, `StatsFailure` and `EventOrderIrrelevant` describe it |
| GitLang.GetStats | gitlang.py:22-41 | `get_stats` gives exactly `Stats`: a failure when the first page is not a success, otherwise the pruned per-language totals over the files of the target's commits in the target's pushes, over the whole feed |
| StatsFacts.ReportContents | gitlang.py:37-41 | a language is in the result exactly when it is a table language and some counted file of it adds or deletes a line; its entry is its totals |
| StatsFacts.ReportPermutation | gitlang.py:37-41 | reordering the counted files does not change the result |
| StatsFacts.CommitsFilesAppend | gitlang.py:31-36 | the files of a push's commits, split into two runs, are those of each run in turn |
| StatsFacts.IgnoredCommit | gitlang.py:31-36 | a commit by someone else, or one whose detail has no `files` key, contributes nothing wherever it stands |
| StatsFacts.IgnoredEvent | gitlang.py:27-29 | an event that is not a push by the target user contributes nothing wherever it stands |
| StatsFacts.CountedFilesOrigin | gitlang.py:27-36 | every counted file comes from a commit by the target user inside a push by the target user |
| StatsFacts.CommitsFilesOrigin | gitlang.py:31-36 | every file counted for a push comes from one of its commits by the target user |
| StatsFacts.CommitsFilesComplete | gitlang.py:31-36 | every file of a commit by the target user is among the files its push contributes; with `CommitsFilesOrigin`, a push's files are exactly those of its commits by the target user |
| StatsFacts.CountedFilesComplete | gitlang.py:27-36 | every file of a commit by the target user inside a push by the target user is counted; with `CountedFilesOrigin`, the counted files are exactly those |
| StatsFacts.CountedFilesWithout | gitlang.py:27-36 | taking one event out of the feed takes its files out of the count |
| StatsFacts.CountedFilesPermutation | gitlang.py:27-36 | reordering the feed's events reorders the counted files, and no more |
| StatsFacts.EventOrderIrrelevant | gitlang.py:27-41 | the result does not depend on the order in which the feed delivers events |
| StatsFacts.StatsOfChain | gitlang.py:22-41 | over a successful first page and a chain of N pages, the result is the report over all N pages' events, in page order |
| StatsFacts.StatsFailure | gitlang.py:22-41 | the result is a failure exactly when the first page is not a success; a success holds only table languages with non-zero totals |
| StatsFacts.StatsFuelIrrelevant | gitlang.py:22-41 | the result of `get_stats` does not depend on the ghost bound on the feed's length, once the bound is large enough |
| StatsFacts.PushScenario | gitlang.py:37-41 | `a.py` (+10/-0) and `b.js` (+0/-4) give Python (10, 0) and Javascript (0, 4), and nothing else |
| StatsFacts.MergeScenario | gitlang.py:37-41 | two Python files (+10/-2, +5/-0) and a Javascript file (+0/-3) give Python (15, 2) and Javascript (0, 3), and nothing else |
| StatsFacts.OrderScenario | gitlang.py:37-41 | the files of the previous row, in any order, give the same result |
| StatsFacts.FeedScenario | gitlang.py:22-41 | a one-page feed for alice: a watch event, then a push of one commit by alice and one by bob. The result counts only alice's commit |

## Left out

- `authenticate` (gitlang.py:44-52) is not modelled. It is interactive input plus building an HTTP session; the model takes the session's login as given.
- The module-level script (gitlang.py:109-122) is not modelled. It only prints the result with colours.
- HTTP, JSON decoding and `raise_for_status` are not modelled. A response is a success flag and an already-decoded page, and commit details are an already-decoded `files` list.
- `requests.utils.parse_header_links` and `headers.get('Link')` (gitlang.py:95) are not modelled. The Link header is an already-parsed list of (url, rel) entries, so a response without any Link header is not modelled: the library call it leads to is outside the model.
- KeyError on records missing `type`, `actor`, `repo`, `payload`, `commits`, `author`, `sha`, `filename`, `additions` or `deletions` is not modelled. Records are taken as well-formed; counts are non-negative integers (`nat`).
- Events.EventIterator.constructor: requires a ghost bound `fuel` within which the chain of `next` links ends, so a feed whose links form a cycle is not modelled. In the source such a cycle behaves in one of two ways. If every page in the cycle is empty, `__next__` (gitlang.py:88-92) keeps calling `refresh` and itself, and raises `RecursionError` at Python's recursion limit. If some page in the cycle has events, each call returns an event and its recursion unwinds, so the `for` loop at gitlang.py:27 runs forever and counts the same commits again and again.
- Events.EventIterator.Open: requires the same bound when the first response is a success, for the same reason.
- GitLang.Stats: requires the same bound on the target user's feed (`FeedEnds`), for the same reason.
- Events.EventIterator.Next: Python's recursion limit is not modelled. `__next__` recurses once for each empty page in a row, so a finite chain with about a thousand consecutive empty pages raises `RecursionError` in the source. The model's loop skips any number of them.
- GitLang.GetStats: requires the same ghost bound on the feed's chain of pages, for the same reason.
- StatsFacts.StatsFailure: states that `get_stats` fails exactly when the first page is not a success. This holds only because every later response is taken to decode to a page of events. In the source, a later request that fails returns an error object (a JSON dict) as its body, and `refresh` stores it in `self.events` (gitlang.py:106). `__next__` then finds it non-empty, so `self.events.pop(0)` at gitlang.py:90 raises `KeyError` and `get_stats` fails there too. An empty error object would instead be skipped as an empty page. The model cannot represent a later page whose body is not a list of events.
- GitLang.GetStats returns each language's totals as a value, not the `StatTracker` objects. The result's key order, which in Python follows the table's order, is not modelled (a Dafny map has no order).
- Line 104 fetches through the module-level `session` rather than `self.session`. In the source these are the same object, so the model uses one `get` for every page.
- The order and number of network calls is not modelled; `get` and `commitFiles` are pure functions of the URL, so repeated or duplicated commits fetch the same data.
