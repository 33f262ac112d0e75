# Merge-conflict detector: a Dafny model of its decision logic

The detector has two parts. The first is a webhook handler (`app.py`). For a pull request that was just opened or pushed to, it polls the code host until the host has worked out mergeability, decides whether the pull request conflicts, and lists the files it takes to be conflicting. The second is a batch job (`knowledge_base.py`). It lists the closed pull requests, keeps the merged ones, and adds one embedding per changed file of each to a vector store, all under the pull request's number. It can also ask the store for the three nearest past conflicts of a text.

Every remote system is a plain input in this model:

- each answer of the host is a value: the poll's replies are a sequence, a file list is a sequence of `PullFile`, and the closed-PR listing is a `Body` (JSON or unparsable);
- sleeping is a counter (`PollResult.sleeps`, two seconds each);
- the sentence embedder is a function parameter `embed`;
- the vector store is a `Collection` object that logs every add made to it, and its similarity query is a function parameter `query`.

Modules:

- `Values` (values.dfy): JSON values, Python truthiness, Python's `str()` for scalars, and the exceptions a payload of the wrong shape raises (`Outcome`).
- `App` (app.py): the event filter, the bounded poll loop (`PollMergeability`, proved equal to its closed form `Poll`), the conflict decision, the status-based file picker, and the webhook.
- `KnowledgeBase` (knowledge_base.py): the merged-PR filter with its error short-circuits (`GetMergedPrs`), the file projection (`GetPrDiff`), document text and vector id, ingestion as nested loops over the store (`AddToChroma`), and id extraction from a query result.

Points of the code's behaviour the model pins down:

- The action that marks a push is matched as exactly `"synchronize"`; the spelling "synchronized" triggers nothing (`App.SynchronizedIsIgnored`).
- A poll whose seven replies all leave `mergeable` unknown is reported mergeable unless the last state is "dirty" or "unknown" (`App.ExhaustedPollDecidedByState`).
- Every file of a pull request is added under the same id, `str(number)`, and a second run of the job issues the same add calls again (`KnowledgeBase.AddToChroma`).
- The first exception while building the merged records ends the listing call; no entry is skipped over it (`KnowledgeBase.MergedRecordsRaisedSticks`).

## Model

| member | source | states |
|---|---|---|
| `App.GithubWebhook` | app.py:15-29 | the reply is always `{"message": "Webhook received"}` with status 200; analysis runs iff the action is exactly "opened" or "synchronize"; with any other or no action, no query is made |
| `App.SynchronizedIsIgnored` | app.py:19 | "synchronized" triggers no query, while "synchronize" does |
| `App.FirstResolved` | app.py:43-50 | the first reply with a known `mergeable`: every earlier reply leaves it unknown |
| `App.Poll` | app.py:39-53 | closed form of the loop: 1 to 7 queries, at most 7 sleeps, at most 14 s of waiting; the kept `mergeable` and `mergeable_state` are those of the last reply read |
| `App.PollMergeability` | app.py:39-53 | the `for` loop with early `break` computes exactly `Poll` |
| `App.PollStopsAtFirstResolved` | app.py:49-50 | if the first known `mergeable` is in reply k+1 (k < 7), exactly k+1 queries and k sleeps are made, and that reply's two fields are kept |
| `App.PollExhausted` | app.py:43-53 | if none of the 7 replies knows `mergeable`: 7 queries, 7 sleeps, 14 s, `mergeable` stays None, and the state is the 7th reply's |
| `App.PollSleepsAfterEachInconclusiveReply` | app.py:49-53 | sleeps = queries − 1 when the loop stopped on a known `mergeable`, and sleeps = queries otherwise |
| `App.PollReadsOnlyQueriedReplies` | app.py:43-50 | replies after the last query never affect the result |
| `App.UnresolvedIsReportedMergeable` | app.py:57-61 | `mergeable` None with a state other than "dirty"/"unknown" (or none) is reported mergeable |
| `App.ExhaustedPollDecidedByState` | app.py:57-61 | after an unresolved poll, the verdict is "conflicting" iff the last state is "dirty" or "unknown" |
| `App.ConflictingFiles` | app.py:74-76 | never more names than files |
| `App.ConflictingFilesMembership` | app.py:74-76 | a name is listed iff some file of that name has status modified, renamed or removed |
| `App.ConflictingFilesAppend` | app.py:74-76 | picking distributes over concatenation, so input order is kept |
| `App.NonConflictingFileIgnored` | app.py:75 | a file with any other status (e.g. "added") can be removed without changing the list |
| `App.AnalyzePrConflicts` | app.py:35-61 | poll, decide, and fetch and pick files only for a conflicting pull request; 1 to 8 queries in all |
| `Values.DecimalStringInjective` | knowledge_base.py:91 | `str()` of distinct integers differs |
| `KnowledgeBase.ErrorResponsesYieldNothing` | knowledge_base.py:30-40 | a body that is not JSON, or a dict with "message", gives an empty result |
| `KnowledgeBase.GetMergedPrs` | knowledge_base.py:23-55 | the loop that appends records computes `MergedPrs`: the error short-circuits, iterating a non-list value, the merged filter and the projection |
| `KnowledgeBase.FirstMissingKey` | knowledge_base.py:47-51 | the position of the first record key absent from an entry |
| `KnowledgeBase.RecordOf` | knowledge_base.py:46-52 | the record copies `number`, `title`, `body`, `merged_at`, `merge_commit_sha` into `pr_number`, `title`, `body`, `merged_at`, `merge_commit`; it is built iff all five keys exist; otherwise the first missing key, in that order, raises KeyError |
| `KnowledgeBase.MergedRecordsRaisedSticks` | knowledge_base.py:44-52 | once an entry raises, the whole call raises that exception |
| `KnowledgeBase.MergedRecordsContents` | knowledge_base.py:44-52 | building succeeds iff every dict entry with truthy `merged_at` has all record keys; the records are then exactly those entries, one each, in input order |
| `KnowledgeBase.MergedEntriesAppend` | knowledge_base.py:44-45 | the merged filter distributes over concatenation |
| `KnowledgeBase.UnmergedEntryIgnored` | knowledge_base.py:45 | an entry that is not a dict with truthy `merged_at` adds no record |
| `KnowledgeBase.MergedPrsLength` | knowledge_base.py:44-52 | never more records than listing entries |
| `KnowledgeBase.FileChangesAt` | knowledge_base.py:70-75 | one change per file, at the same position; its filename and status are the file's, and its patch is the file's patch, or "" when the file has none |
| `KnowledgeBase.GetPrDiff` | knowledge_base.py:61-77 | the append loop computes `FileChanges(files)` |
| `KnowledgeBase.DocumentRoundTrip` | knowledge_base.py:87 | the text `"File: " + filename + "\nDiff: " + patch` gives back the filename and the patch (for a filename with no newline) |
| `KnowledgeBase.DistinctNumbersDistinctIds` | knowledge_base.py:91 | pull requests with different integer numbers get different vector ids |
| `KnowledgeBase.Collection.Add` | knowledge_base.py:91 | one add appends one `(id, embedding)` entry to the store's log |
| `KnowledgeBase.AddChanges` | knowledge_base.py:86-91 | the inner loop adds one embedding per change, in order, all under one id |
| `KnowledgeBase.PrAddsAt` | knowledge_base.py:86-91 | the k-th add for a pull request is the embedding of its k-th file's text, under `str(number)` |
| `KnowledgeBase.IngestLogStep` | knowledge_base.py:85-91 | one outer iteration appends the adds of one pull request |
| `KnowledgeBase.IngestLogAppend` | knowledge_base.py:85-91 | the adds of a batch are the adds of its parts, in order |
| `KnowledgeBase.IngestLogLength` | knowledge_base.py:85-91 | one add per changed file of each merged pull request |
| `KnowledgeBase.IngestLogOrigin` | knowledge_base.py:85-91 | every add is the embedding of one changed file of one merged pull request, stored under that pull request's id |
| `KnowledgeBase.AddMergedPrs` | knowledge_base.py:85-91 | the nested loops append exactly `IngestLog(prs)` to the store and change nothing else |
| `KnowledgeBase.AddToChroma` | knowledge_base.py:82-93 | if the listing raises, nothing is added; otherwise the adds are `IngestLog` of the merged records, and the reported count is the number of merged pull requests, not the number of adds |
| `KnowledgeBase.SearchConflictsDependsOnlyOnTheRequest` | knowledge_base.py:98-109 | the matches depend only on the store's answer to one request for 3 neighbours of the text's embedding: stores that answer it alike, or texts with the same embedding, give the same matches; an answer with no id lists gives none, otherwise the first list |
| `KnowledgeBase.SearchConflictsBounded` | knowledge_base.py:98-109 | a store that honours `n_results` yields at most 3 ids, each one it returned for the query |

## Left out

- The Flask app, routing and reading the request body (app.py:1-16, 84-85): the event is given already parsed as `PullRequestEvent`.
- Reading `data["pull_request"]["number"]`, `["base"]["ref"]` and `["head"]["ref"]` (app.py:20-22) raises when a key is missing, and the framework then answers with an error. The model takes an event whose number exists. The two branch names are never used.
- HTTP requests, the host's URLs and auth headers, dotenv, the token, and all `print` output: these are I/O and logging. A reply that is not JSON at app.py:45, or a file list that is not a list at app.py:72, raises in the source and is not modelled.
- A poll reply that is JSON but not an object (app.py:44-47): `pr_data.get` then raises AttributeError. `App.Reply` holds only the two fields, so this path is not modelled.
- `get_pr_diff` on a body that is not a list of file objects (knowledge_base.py:66-70) raises in the source. `filesOf` always yields a well-formed list, so the partial ingestion that such an exception causes inside `add_to_chroma`'s loop (earlier adds stay in the store, the rest of the run is aborted) is not modelled.
- Return values: `analyze_pr_conflicts`, `get_conflicting_files` and `add_to_chroma` return None in the source. The file list in `App.Verdict.HasConflicts` and the count returned by `KnowledgeBase.AddToChroma` stand for what they print.
- `time.sleep(2)` (app.py:53): counted in `PollResult.sleeps`, not performed.
- `App.Poll`: the replies are a sequence of at least 7 answers (the host answers every query). `mergeable` is `Option<bool>`: a non-boolean value there is not modelled.
- `Values.PyStr`: `str()` of a list or a dict is Python's `repr`, which is not spelled out; both are rendered as "". JSON floats are not modelled at all (`Json` has integers only).
- `PullFile`: `filename` and `status` are strings that are always present. In the source an entry without `status` raises (app.py:75, knowledge_base.py:73); one without `filename` raises in `get_pr_diff` (knowledge_base.py:72), and at app.py:75 only when its status is a conflict status. None of these paths is modelled. An explicit `"patch": null` (which Python would format as "None") cannot be represented.
- `SentenceTransformer.encode` (knowledge_base.py:14, 88, 99): a floating-point neural embedding. It is the uninterpreted parameter `embed`.
- Chroma persistence, what `collection.add` does with an id added twice, and query ranking (knowledge_base.py:17-18, 91, 100): library-defined. The store is a log of adds, and the query is the parameter `query`.
- Only the first page of closed pull requests (`per_page=50`, knowledge_base.py:24) is ever read. There is no pagination to model.

