/** The conflict check run for each pull-request webhook event: filter the event
    by its action, poll the host until it has computed mergeability, decide
    whether the pull request conflicts, and if so pick the conflicting files.
    The host's answers are inputs; sleeping is counted, not performed. */
module App {
  import opened Values

  /** The host is queried at most this many times. */
  const MAX_ATTEMPTS: nat := 7
  /** Seconds slept after each inconclusive answer. */
  const SLEEP_SECONDS: nat := 2

  // ---------------------------------------------------------------------
  // Event filter
  // ---------------------------------------------------------------------

  /** The part of a webhook event the detector reads: the `action` (absent or
      not a string reads as None) and the pull request's number. */
  datatype PullRequestEvent = PullRequestEvent(action: Option<string>, prNumber: int)

  /** Only newly opened pull requests and pushes to one are analysed. */
  predicate TriggersAnalysis(action: Option<string>) {
    action == Some("opened") || action == Some("synchronize")
  }

  // ---------------------------------------------------------------------
  // Polling the host for mergeability
  // ---------------------------------------------------------------------

  /** One answer of the host to "get this pull request": its `mergeable` and
      `mergeable_state` fields, None when absent or null. */
  datatype Reply = Reply(mergeable: Option<bool>, mergeableState: Option<string>)

  /** Where the poll loop ends: how many queries it made, how many times it
      slept, and the two fields of the last reply it read. */
  datatype PollResult = PollResult(queries: nat, sleeps: nat, mergeable: Option<bool>, mergeableState: Option<string>)

  function WaitSeconds(p: PollResult): nat {
    SLEEP_SECONDS * p.sleeps
  }

  /** The index of the first reply with a known `mergeable`, or `|replies|`. */
  function FirstResolved(replies: seq<Reply>): (k: nat)
    ensures k <= |replies|
    ensures forall j :: 0 <= j < k ==> replies[j].mergeable.None?
    ensures k < |replies| ==> replies[k].mergeable.Some?
  {
    if replies == [] then 0
    else if replies[0].mergeable.Some? then 0
    else 1 + FirstResolved(replies[1..])
  }

  /** Closed form of the poll loop. `replies[n]` is what the host answers to
      the (n+1)-th query; it answers every query. */
  function Poll(replies: seq<Reply>): (p: PollResult)
    requires |replies| >= MAX_ATTEMPTS
    ensures 1 <= p.queries <= MAX_ATTEMPTS
    ensures p.sleeps <= MAX_ATTEMPTS && WaitSeconds(p) <= 14
    ensures p.mergeable == replies[p.queries - 1].mergeable
    ensures p.mergeableState == replies[p.queries - 1].mergeableState
  {
    var k := FirstResolved(replies[..MAX_ATTEMPTS]);
    if k < MAX_ATTEMPTS then
      PollResult(k + 1, k, replies[k].mergeable, replies[k].mergeableState)
    else
      PollResult(MAX_ATTEMPTS, MAX_ATTEMPTS, replies[MAX_ATTEMPTS - 1].mergeable, replies[MAX_ATTEMPTS - 1].mergeableState)
  }

  /** The retry loop: query, keep the two fields, stop once `mergeable` is
      known, otherwise sleep and retry, up to `MAX_ATTEMPTS` queries. */
  method PollMergeability(replies: seq<Reply>) returns (p: PollResult)
    requires |replies| >= MAX_ATTEMPTS
    ensures p == Poll(replies)
  {
    var mergeable: Option<bool> := None;
    var mergeableState: Option<string> := None;
    var queries, sleeps := 0, 0;
    for i := 0 to MAX_ATTEMPTS
      invariant queries == sleeps == i
      invariant forall j :: 0 <= j < i ==> replies[j].mergeable.None?
      invariant i > 0 ==> mergeable == replies[i - 1].mergeable && mergeableState == replies[i - 1].mergeableState
    {
      var reply := replies[i];
      queries := queries + 1;
      mergeable, mergeableState := reply.mergeable, reply.mergeableState;
      if mergeable.Some? {
        assert FirstResolved(replies[..MAX_ATTEMPTS]) == i;
        return PollResult(queries, sleeps, mergeable, mergeableState);
      }
      sleeps := sleeps + 1;
    }
    assert FirstResolved(replies[..MAX_ATTEMPTS]) == MAX_ATTEMPTS;
    return PollResult(queries, sleeps, mergeable, mergeableState);
  }

  /** If the first reply with a known `mergeable` is the (k+1)-th, the loop
      makes exactly k+1 queries, sleeps k times and keeps that reply. */
  lemma PollStopsAtFirstResolved(replies: seq<Reply>, k: nat)
    requires |replies| >= MAX_ATTEMPTS && k < MAX_ATTEMPTS
    requires replies[k].mergeable.Some?
    requires forall j :: 0 <= j < k ==> replies[j].mergeable.None?
    ensures Poll(replies).queries == k + 1 && Poll(replies).sleeps == k
    ensures Poll(replies).mergeable == replies[k].mergeable
    ensures Poll(replies).mergeableState == replies[k].mergeableState
  {
  }

  /** If no reply among the first seven knows `mergeable`, all seven queries are
      made, each followed by a sleep, and `mergeable` stays None. */
  lemma PollExhausted(replies: seq<Reply>)
    requires |replies| >= MAX_ATTEMPTS
    requires forall j :: 0 <= j < MAX_ATTEMPTS ==> replies[j].mergeable.None?
    ensures Poll(replies).queries == MAX_ATTEMPTS && Poll(replies).sleeps == MAX_ATTEMPTS
    ensures WaitSeconds(Poll(replies)) == 14
    ensures Poll(replies).mergeable.None?
    ensures Poll(replies).mergeableState == replies[MAX_ATTEMPTS - 1].mergeableState
  {
  }

  /** The loop sleeps after every query except one that resolved. */
  lemma PollSleepsAfterEachInconclusiveReply(replies: seq<Reply>)
    requires |replies| >= MAX_ATTEMPTS
    ensures var p := Poll(replies);
      p.sleeps == if p.mergeable.Some? then p.queries - 1 else p.queries
  {
  }

  /** Replies after the last query made are never read: two hosts that agree
      on the queried replies lead to the same result. */
  lemma {:induction false} PollReadsOnlyQueriedReplies(replies: seq<Reply>, other: seq<Reply>)
    requires |replies| >= MAX_ATTEMPTS && |other| >= MAX_ATTEMPTS
    requires replies[..Poll(replies).queries] == other[..Poll(replies).queries]
    ensures Poll(other) == Poll(replies)
  {
    var q := Poll(replies).queries;
    var k := FirstResolved(replies[..MAX_ATTEMPTS]);
    forall j | 0 <= j < q
      ensures other[j] == replies[j]
    {
      assert other[..q][j] == replies[..q][j];
    }
    if k < MAX_ATTEMPTS {
      assert q == k + 1;
      PollStopsAtFirstResolved(other, k);
    } else {
      assert q == MAX_ATTEMPTS;
      forall j | 0 <= j < MAX_ATTEMPTS
        ensures other[j].mergeable.None?
      {
        assert replies[..MAX_ATTEMPTS][j].mergeable.None?;
      }
      PollExhausted(other);
    }
  }

  // ---------------------------------------------------------------------
  // The conflict decision
  // ---------------------------------------------------------------------

  /** A pull request is judged conflicting when the host said `mergeable` is
      False or its state is "dirty" or "unknown". */
  predicate IsConflicting(p: PollResult) {
    p.mergeable == Some(false) || p.mergeableState == Some("dirty") || p.mergeableState == Some("unknown")
  }

  /** An unresolved `mergeable` does not by itself count as a conflict: with any
      other state, or none, the pull request is reported mergeable. */
  lemma UnresolvedIsReportedMergeable(p: PollResult)
    requires p.mergeable.None?
    requires p.mergeableState != Some("dirty") && p.mergeableState != Some("unknown")
    ensures !IsConflicting(p)
  {
  }

  /** After a poll that never resolved, only the last reply's state decides. */
  lemma ExhaustedPollDecidedByState(replies: seq<Reply>)
    requires |replies| >= MAX_ATTEMPTS
    requires forall j :: 0 <= j < MAX_ATTEMPTS ==> replies[j].mergeable.None?
    ensures IsConflicting(Poll(replies)) <==>
      replies[MAX_ATTEMPTS - 1].mergeableState in {Some("dirty"), Some("unknown")}
  {
  }

  // ---------------------------------------------------------------------
  // Picking the conflicting files
  // ---------------------------------------------------------------------

  /** The statuses under which a changed file is reported as conflicting. */
  predicate IsConflictStatus(status: string) {
    status == "modified" || status == "renamed" || status == "removed"
  }

  /** The names of the files whose status marks them as conflicting, in order. */
  function ConflictingFiles(files: seq<PullFile>): (names: seq<string>)
    ensures |names| <= |files|
  {
    if files == [] then []
    else (if IsConflictStatus(files[0].status) then [files[0].filename] else []) + ConflictingFiles(files[1..])
  }

  /** Picking distributes over concatenation, so input order is kept. */
  lemma {:induction false} ConflictingFilesAppend(a: seq<PullFile>, b: seq<PullFile>)
    ensures ConflictingFiles(a + b) == ConflictingFiles(a) + ConflictingFiles(b)
  {
    if a == [] {
      assert a + b == b;
    } else {
      var head := if IsConflictStatus(a[0].status) then [a[0].filename] else [];
      assert (a + b)[0] == a[0];
      assert (a + b)[1..] == a[1..] + b;
      ConflictingFilesAppend(a[1..], b);
      calc {
        ConflictingFiles(a + b);
        head + ConflictingFiles(a[1..] + b);
        head + (ConflictingFiles(a[1..]) + ConflictingFiles(b));
        (head + ConflictingFiles(a[1..])) + ConflictingFiles(b);
      }
    }
  }

  /** A name is listed exactly when some file of that name has a conflict status. */
  lemma {:induction false} ConflictingFilesMembership(files: seq<PullFile>, name: string)
    ensures name in ConflictingFiles(files) <==>
      exists i :: 0 <= i < |files| && files[i].filename == name && IsConflictStatus(files[i].status)
  {
    if files != [] {
      ConflictingFilesMembership(files[1..], name);
      if name in ConflictingFiles(files[1..]) {
        var i :| 0 <= i < |files[1..]| && files[1..][i].filename == name && IsConflictStatus(files[1..][i].status);
        assert files[i + 1] == files[1..][i];
      }
      if exists i :: 0 <= i < |files| && files[i].filename == name && IsConflictStatus(files[i].status) {
        var i :| 0 <= i < |files| && files[i].filename == name && IsConflictStatus(files[i].status);
        if i > 0 {
          assert files[1..][i - 1] == files[i];
        }
      }
    }
  }

  /** An added file (or any file with another status) is never listed: removing
      it leaves the list unchanged. */
  lemma NonConflictingFileIgnored(before: seq<PullFile>, f: PullFile, after: seq<PullFile>)
    requires !IsConflictStatus(f.status)
    ensures ConflictingFiles(before + [f] + after) == ConflictingFiles(before + after)
  {
    ConflictingFilesAppend(before + [f], after);
    ConflictingFilesAppend(before, [f]);
    ConflictingFilesAppend(before, after);
  }

  // ---------------------------------------------------------------------
  // Analysing one pull request, and the webhook
  // ---------------------------------------------------------------------

  datatype Verdict = HasConflicts(conflictingFiles: seq<string>) | Mergeable

  /** The poll, the verdict, and how many queries the analysis makes. */
  datatype Analysis = Analysis(poll: PollResult, verdict: Verdict) {
    function Queries(): nat {
      poll.queries + if verdict.HasConflicts? then 1 else 0
    }
  }

  /** Poll, decide, and, for a conflicting pull request, fetch its file list
      (`files`) and pick the conflicting files. */
  function Analyze(replies: seq<Reply>, files: seq<PullFile>): Analysis
    requires |replies| >= MAX_ATTEMPTS
  {
    var p := Poll(replies);
    Analysis(p, if IsConflicting(p) then HasConflicts(ConflictingFiles(files)) else Mergeable)
  }

  method AnalyzePrConflicts(replies: seq<Reply>, files: seq<PullFile>) returns (a: Analysis)
    requires |replies| >= MAX_ATTEMPTS
    ensures a == Analyze(replies, files)
    ensures 1 <= a.Queries() <= MAX_ATTEMPTS + 1
  {
    var p := PollMergeability(replies);
    if IsConflicting(p) {
      a := Analysis(p, HasConflicts(ConflictingFiles(files)));
    } else {
      a := Analysis(p, Mergeable);
    }
  }

  /** The webhook's answer: always the same acknowledgement, and the analysis
      it ran, if any. */
  datatype WebhookReply = WebhookReply(message: string, status: nat, analysis: Option<Analysis>) {
    function Queries(): nat {
      if analysis.Some? then analysis.value.Queries() else 0
    }
  }

  function GithubWebhook(event: PullRequestEvent, replies: seq<Reply>, files: seq<PullFile>): (r: WebhookReply)
    requires |replies| >= MAX_ATTEMPTS
    ensures r.message == "Webhook received" && r.status == 200
    ensures r.analysis.Some? <==> TriggersAnalysis(event.action)
    ensures r.analysis.Some? ==> r.analysis.value == Analyze(replies, files)
    ensures r.Queries() == 0 <==> !TriggersAnalysis(event.action)
  {
    var analysis := if TriggersAnalysis(event.action) then Some(Analyze(replies, files)) else None;
    WebhookReply("Webhook received", 200, analysis)
  }

  /** The action name is "synchronize"; "synchronized" is ignored like any
      other action. */
  lemma SynchronizedIsIgnored(replies: seq<Reply>, files: seq<PullFile>, prNumber: int)
    requires |replies| >= MAX_ATTEMPTS
    ensures GithubWebhook(PullRequestEvent(Some("synchronized"), prNumber), replies, files).Queries() == 0
    ensures GithubWebhook(PullRequestEvent(Some("synchronize"), prNumber), replies, files).Queries() >= 1
  {
  }
}
