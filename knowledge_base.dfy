/** The batch job that fills the conflict knowledge base: list the closed pull
    requests, keep the merged ones, and add one embedding per changed file of
    each to the store, all under the pull request's number; and the similarity search over it.
    Host responses are inputs, the embedder and the store's query are given
    functions, and the store is a log of the adds made to it. */
module KnowledgeBase {
  import opened Values

  type Embedding = seq<real>

  /** The host's body for "list closed pull requests": JSON, or not JSON at all. */
  datatype Body = Unparsable | Parsed(json: Json)

  // ---------------------------------------------------------------------
  // Merged pull requests
  // ---------------------------------------------------------------------

  /** The record kept for a merged pull request, each field copied from the
      listing entry as is. */
  datatype MergedPr = MergedPr(prNumber: Json, title: Json, body: Json, mergedAt: Json, mergeCommit: Json)

  /** The listing keys a record is built from, in the order Python reads them. */
  const RECORD_KEYS: seq<string> := ["number", "title", "body", "merged_at", "merge_commit_sha"]

  /** A listing entry is kept when it is a dict whose `merged_at` is truthy. */
  predicate IsMergedEntry(pr: Json) {
    pr.Dict? && "merged_at" in pr.fields && Truthy(pr.fields["merged_at"])
  }

  predicate HasRecordKeys(d: map<string, Json>) {
    "number" in d && "title" in d && "body" in d && "merged_at" in d && "merge_commit_sha" in d
  }

  /** The position in `keys` of the first key missing from `d`, or `|keys|`. */
  function FirstMissingKey(d: map<string, Json>, keys: seq<string>): (k: nat)
    ensures k <= |keys|
    ensures forall j :: 0 <= j < k ==> keys[j] in d
    ensures k < |keys| ==> keys[k] !in d
  {
    if keys == [] then 0 else if keys[0] !in d then 0 else 1 + FirstMissingKey(d, keys[1..])
  }

  /** Build the record of one merged entry, reading its keys in the order of
      `RECORD_KEYS`; the first key missing from the entry raises KeyError. */
  function RecordOf(d: map<string, Json>): (r: Outcome<MergedPr>)
    ensures r.Returned? <==> HasRecordKeys(d)
    ensures r.Returned? ==> r.value == MergedPr(d["number"], d["title"], d["body"], d["merged_at"], d["merge_commit_sha"])
    ensures r.Raised? ==>
      exists k :: 0 <= k < |RECORD_KEYS| && r.exc == KeyError(RECORD_KEYS[k]) &&
        RECORD_KEYS[k] !in d && forall j :: 0 <= j < k ==> RECORD_KEYS[j] in d
  {
    var k := FirstMissingKey(d, RECORD_KEYS);
    if k < |RECORD_KEYS| then Raised(KeyError(RECORD_KEYS[k]))
    else
      assert RECORD_KEYS[1] in d && RECORD_KEYS[2] in d && RECORD_KEYS[3] in d && RECORD_KEYS[4] in d;
      Returned(MergedPr(d["number"], d["title"], d["body"], d["merged_at"], d["merge_commit_sha"]))
  }

  /** The records of the merged entries of a listing, built in order; the
      first entry that cannot be built raises. */
  function MergedRecords(prs: seq<Json>): Outcome<seq<MergedPr>>
    decreases |prs|
  {
    if prs == [] then Returned([])
    else
      match MergedRecords(prs[..|prs| - 1])
      case Raised(e) => Raised(e)
      case Returned(acc) =>
        var pr := prs[|prs| - 1];
        if !IsMergedEntry(pr) then Returned(acc)
        else
          match RecordOf(pr.fields)
          case Raised(e) => Raised(e)
          case Returned(rec) => Returned(acc + [rec])
  }

  /** What `get_merged_prs` returns for a listing body. */
  function MergedPrs(response: Body): Outcome<seq<MergedPr>> {
    match response
    case Unparsable => Returned([])
    case Parsed(prs) =>
      match prs
      case Dict(fields) =>
        // with "message": the host's error answer; without: iterating a
        // dict yields its keys, strings that are never kept
        Returned([])
      case List(items) => MergedRecords(items)
      case Str(_) => Returned([])   // iterating a string yields strings
      case Null => Raised(TypeError)
      case Bool(_) => Raised(TypeError)
      case Int(_) => Raised(TypeError)
  }

  method GetMergedPrs(response: Body) returns (r: Outcome<seq<MergedPr>>)
    ensures r == MergedPrs(response)
  {
    if response.Unparsable? {
      return Returned([]);
    }
    var prs := response.json;
    if prs.Dict? && "message" in prs.fields {
      return Returned([]);
    }
    if !prs.List? {
      if prs.Dict? || prs.Str? {
        return Returned([]);
      }
      return Raised(TypeError);
    }
    var items := prs.items;
    var merged: seq<MergedPr> := [];
    for i := 0 to |items|
      invariant MergedRecords(items[..i]) == Returned(merged)
    {
      var pr := items[i];
      assert items[..i + 1][..i] == items[..i];
      if IsMergedEntry(pr) {
        var rec := RecordOf(pr.fields);
        if rec.Raised? {
          assert MergedRecords(items[..i + 1]) == Raised(rec.exc);
          MergedRecordsRaisedSticks(items, i + 1);
          assert items[..|items|] == items;
          return Raised(rec.exc);
        }
        merged := merged + [rec.value];
      }
    }
    assert items[..|items|] == items;
    return Returned(merged);
  }

  /** Once a prefix raises, so does every longer prefix, with the same exception. */
  lemma {:induction false} MergedRecordsRaisedSticks(prs: seq<Json>, n: nat)
    requires n <= |prs| && MergedRecords(prs[..n]).Raised?
    ensures MergedRecords(prs) == MergedRecords(prs[..n])
    decreases |prs| - n
  {
    if n < |prs| {
      assert prs[..n + 1][..n] == prs[..n];
      MergedRecordsRaisedSticks(prs, n + 1);
    } else {
      assert prs[..n] == prs;
    }
  }

  /** The dict entries of a listing that count as merged, in order. */
  function MergedEntries(prs: seq<Json>): (ds: seq<map<string, Json>>)
    ensures |ds| <= |prs|
  {
    if prs == [] then []
    else (if IsMergedEntry(prs[0]) then [prs[0].fields] else []) + MergedEntries(prs[1..])
  }

  lemma {:induction false} MergedEntriesAppend(a: seq<Json>, b: seq<Json>)
    ensures MergedEntries(a + b) == MergedEntries(a) + MergedEntries(b)
  {
    if a == [] {
      assert a + b == b;
    } else {
      var head := if IsMergedEntry(a[0]) then [a[0].fields] else [];
      assert (a + b)[0] == a[0];
      assert (a + b)[1..] == a[1..] + b;
      MergedEntriesAppend(a[1..], b);
      calc {
        MergedEntries(a + b);
        head + MergedEntries(a[1..] + b);
        head + (MergedEntries(a[1..]) + MergedEntries(b));
        (head + MergedEntries(a[1..])) + MergedEntries(b);
      }
    }
  }

  /** Building succeeds exactly when every merged entry has all record keys,
      and then yields one record per merged entry, in order, each copied
      from its entry. */
  lemma {:induction false} MergedRecordsContents(prs: seq<Json>)
    ensures MergedRecords(prs).Returned? <==>
      forall i :: 0 <= i < |prs| && IsMergedEntry(prs[i]) ==> HasRecordKeys(prs[i].fields)
    ensures MergedRecords(prs).Returned? ==>
      var rs := MergedRecords(prs).value;
      |rs| == |MergedEntries(prs)| &&
      forall j :: 0 <= j < |rs| ==> RecordOf(MergedEntries(prs)[j]) == Returned(rs[j])
    decreases |prs|
  {
    if prs != [] {
      var init, last := prs[..|prs| - 1], prs[|prs| - 1];
      assert prs == init + [last];
      MergedRecordsContents(init);
      MergedEntriesAppend(init, [last]);
      assert MergedEntries([last]) == if IsMergedEntry(last) then [last.fields] else [] by {
        assert [last][1..] == [];
      }
      forall i | 0 <= i < |init| ensures init[i] == prs[i] { }
      if MergedRecords(init).Raised? {
        var i :| 0 <= i < |init| && IsMergedEntry(init[i]) && !HasRecordKeys(init[i].fields);
        assert prs[i] == init[i];
      }
    }
  }

  /** An entry that is not a dict with a truthy `merged_at` (a closed, unmerged
      pull request has `merged_at` null) adds nothing. */
  lemma UnmergedEntryIgnored(prs: seq<Json>, pr: Json)
    requires !IsMergedEntry(pr)
    ensures MergedRecords(prs + [pr]) == MergedRecords(prs)
  {
  }

  /** A body that is not JSON, or the host's error object, yields no records. */
  lemma ErrorResponsesYieldNothing(response: Body)
    requires response.Unparsable? || (response.Parsed? && response.json.Dict? && "message" in response.json.fields)
    ensures MergedPrs(response) == Returned([])
  {
  }

  /** No more records than listing entries. */
  lemma MergedPrsLength(response: Body)
    requires response.Parsed? && response.json.List? && MergedPrs(response).Returned?
    ensures |MergedPrs(response).value| <= |response.json.items|
  {
    MergedRecordsContents(response.json.items);
  }

  // ---------------------------------------------------------------------
  // File changes of one pull request
  // ---------------------------------------------------------------------

  /** One changed file as kept for ingestion; an absent patch reads as "". */
  datatype FileChange = FileChange(filename: string, status: string, patch: string)

  function ChangeOf(f: PullFile): FileChange {
    FileChange(f.filename, f.status, f.patch.GetOr(""))
  }

  function FileChanges(files: seq<PullFile>): seq<FileChange> {
    if files == [] then [] else [ChangeOf(files[0])] + FileChanges(files[1..])
  }

  /** One change per file, at the same position: filename and status copied,
      and the patch when the file has one, "" otherwise. */
  lemma {:induction false} FileChangesAt(files: seq<PullFile>)
    ensures |FileChanges(files)| == |files|
    ensures forall i :: 0 <= i < |files| ==> FileChanges(files)[i] == ChangeOf(files[i])
    ensures forall i :: 0 <= i < |files| ==>
      FileChanges(files)[i].filename == files[i].filename &&
      FileChanges(files)[i].status == files[i].status &&
      FileChanges(files)[i].patch == if files[i].patch.Some? then files[i].patch.value else ""
  {
    if files != [] {
      FileChangesAt(files[1..]);
      forall i | 0 < i < |files| ensures FileChanges(files)[i] == ChangeOf(files[i]) {
        assert files[1..][i - 1] == files[i];
      }
    }
  }

  method GetPrDiff(files: seq<PullFile>) returns (changes: seq<FileChange>)
    ensures changes == FileChanges(files)
  {
    changes := [];
    for i := 0 to |files|
      invariant |changes| == i
      invariant forall k :: 0 <= k < i ==> changes[k] == ChangeOf(files[k])
    {
      var f := files[i];
      changes := changes + [FileChange(f.filename, f.status, f.patch.GetOr(""))];
    }
    FileChangesAt(files);
  }

  // ---------------------------------------------------------------------
  // Documents and ids
  // ---------------------------------------------------------------------

  const FILE_PREFIX: string := "File: "
  const DIFF_SEPARATOR: string := "\nDiff: "

  /** The text embedded for one change. */
  function DocumentText(c: FileChange): string {
    FILE_PREFIX + c.filename + DIFF_SEPARATOR + c.patch
  }

  /** The id every file of a merged pull request is stored under. */
  function VectorId(prNumber: Json): string {
    PyStr(prNumber)
  }

  /** The position of the first newline in `s`, or `|s|`. */
  function FirstNewline(s: string): (k: nat)
    ensures k <= |s|
    ensures forall j :: 0 <= j < k ==> s[j] != '\n'
    ensures k < |s| ==> s[k] == '\n'
  {
    if s == [] then 0 else if s[0] == '\n' then 0 else 1 + FirstNewline(s[1..])
  }

  /** Read the filename and the patch back out of a document text. */
  function SplitDocument(text: string): Option<(string, string)> {
    if |text| < |FILE_PREFIX| || text[..|FILE_PREFIX|] != FILE_PREFIX then None
    else
      var rest := text[|FILE_PREFIX|..];
      var k := FirstNewline(rest);
      if |rest| - k < |DIFF_SEPARATOR| || rest[k..k + |DIFF_SEPARATOR|] != DIFF_SEPARATOR then None
      else Some((rest[..k], rest[k + |DIFF_SEPARATOR|..]))
  }

  /** A document text determines its filename and patch, for filenames
      without a newline. */
  lemma DocumentRoundTrip(c: FileChange)
    requires forall i :: 0 <= i < |c.filename| ==> c.filename[i] != '\n'
    ensures SplitDocument(DocumentText(c)) == Some((c.filename, c.patch))
  {
    var text := DocumentText(c);
    var rest := c.filename + DIFF_SEPARATOR + c.patch;
    assert text[..|FILE_PREFIX|] == FILE_PREFIX;
    assert text[|FILE_PREFIX|..] == rest;
    var k := FirstNewline(rest);
    assert rest[|c.filename|] == '\n';
    assert forall i :: 0 <= i < |c.filename| ==> rest[i] == c.filename[i];
    assert k == |c.filename|;
    assert rest[k..k + |DIFF_SEPARATOR|] == DIFF_SEPARATOR;
    assert rest[..k] == c.filename;
    assert rest[k + |DIFF_SEPARATOR|..] == c.patch;
  }

  /** Two pull requests numbered by different integers get different ids. */
  lemma DistinctNumbersDistinctIds(a: int, b: int)
    requires a != b
    ensures VectorId(Int(a)) != VectorId(Int(b))
  {
    if VectorId(Int(a)) == VectorId(Int(b)) {
      DecimalStringInjective(a, b);
    }
  }

  // ---------------------------------------------------------------------
  // The store and ingestion
  // ---------------------------------------------------------------------

  datatype VectorAdd = VectorAdd(id: string, embedding: Embedding)

  /** The vector store, seen as the log of the adds made to it. How the store
      treats an id added twice is up to the store and not modelled. */
  class Collection {
    var adds: seq<VectorAdd>

    constructor ()
      ensures adds == []
    {
      adds := [];
    }

    method Add(id: string, embedding: Embedding)
      modifies this
      ensures adds == old(adds) + [VectorAdd(id, embedding)]
    {
      adds := adds + [VectorAdd(id, embedding)];
    }
  }

  /** The adds for one merged pull request whose file list is `files`: one
      per changed file, in order, all under the pull request's id. */
  function PrAdds(pr: MergedPr, files: seq<PullFile>, embed: string -> Embedding): seq<VectorAdd> {
    ChangeAdds(VectorId(pr.prNumber), FileChanges(files), embed)
  }

  /** The k-th add of a pull request stores the embedding of its k-th file,
      under the pull request's id. */
  lemma PrAddsAt(pr: MergedPr, files: seq<PullFile>, embed: string -> Embedding)
    ensures |PrAdds(pr, files, embed)| == |files|
    ensures forall k :: 0 <= k < |files| ==>
      PrAdds(pr, files, embed)[k] == VectorAdd(VectorId(pr.prNumber), embed(DocumentText(ChangeOf(files[k]))))
  {
    FileChangesAt(files);
  }

  /** One add under `id` per change, in order. */
  function ChangeAdds(id: string, changes: seq<FileChange>, embed: string -> Embedding): seq<VectorAdd> {
    seq(|changes|, k requires 0 <= k < |changes| => VectorAdd(id, embed(DocumentText(changes[k]))))
  }

  /** The inner loop of ingestion: embed and add each change under `id`. */
  method AddChanges(collection: Collection, id: string, changes: seq<FileChange>, embed: string -> Embedding)
    modifies collection
    ensures collection.adds == old(collection.adds) + ChangeAdds(id, changes, embed)
  {
    ghost var expected := ChangeAdds(id, changes, embed);
    for j := 0 to |changes|
      invariant collection.adds == old(collection.adds) + expected[..j]
    {
      var text := DocumentText(changes[j]);
      var embedding := embed(text);
      collection.Add(id, embedding);
      assert expected[..j + 1] == expected[..j] + [VectorAdd(id, embedding)];
    }
    assert expected[..|changes|] == expected;
  }

  /** All adds of an ingestion run over `prs`, pull request after pull
      request; `filesOf(n)` is the host's file list for pull request `n`. */
  function IngestLog(prs: seq<MergedPr>, filesOf: Json -> seq<PullFile>, embed: string -> Embedding): seq<VectorAdd>
    decreases |prs|
  {
    if prs == [] then []
    else
      var last := prs[|prs| - 1];
      IngestLog(prs[..|prs| - 1], filesOf, embed) + PrAdds(last, filesOf(last.prNumber), embed)
  }

  lemma IngestLogStep(prs: seq<MergedPr>, i: nat, filesOf: Json -> seq<PullFile>, embed: string -> Embedding)
    requires i < |prs|
    ensures IngestLog(prs[..i + 1], filesOf, embed) ==
      IngestLog(prs[..i], filesOf, embed) + PrAdds(prs[i], filesOf(prs[i].prNumber), embed)
  {
    assert prs[..i + 1][..i] == prs[..i];
  }

  lemma AppendAssociative<T>(a: seq<T>, b: seq<T>, c: seq<T>)
    ensures (a + b) + c == a + (b + c)
  {
  }

  /** The number of files over all pull requests of `prs`. */
  function TotalFiles(prs: seq<MergedPr>, filesOf: Json -> seq<PullFile>): nat {
    if prs == [] then 0 else |filesOf(prs[0].prNumber)| + TotalFiles(prs[1..], filesOf)
  }

  lemma {:induction false} IngestLogAppend(a: seq<MergedPr>, b: seq<MergedPr>, filesOf: Json -> seq<PullFile>, embed: string -> Embedding)
    ensures IngestLog(a + b, filesOf, embed) == IngestLog(a, filesOf, embed) + IngestLog(b, filesOf, embed)
    decreases |b|
  {
    if b == [] {
      assert a + b == a;
    } else {
      var init, last := b[..|b| - 1], b[|b| - 1];
      assert (a + b)[..|a + b| - 1] == a + init;
      assert (a + b)[|a + b| - 1] == last;
      var lastAdds := PrAdds(last, filesOf(last.prNumber), embed);
      assert IngestLog(a + b, filesOf, embed) == IngestLog(a + init, filesOf, embed) + lastAdds;
      IngestLogAppend(a, init, filesOf, embed);
      assert IngestLog(b, filesOf, embed) == IngestLog(init, filesOf, embed) + lastAdds;
      AppendAssociative(IngestLog(a, filesOf, embed), IngestLog(init, filesOf, embed), lastAdds);
    }
  }

  /** One add per changed file of each merged pull request. */
  lemma {:induction false} IngestLogLength(prs: seq<MergedPr>, filesOf: Json -> seq<PullFile>, embed: string -> Embedding)
    ensures |IngestLog(prs, filesOf, embed)| == TotalFiles(prs, filesOf)
  {
    if prs != [] {
      IngestLogAppend([prs[0]], prs[1..], filesOf, embed);
      assert [prs[0]] + prs[1..] == prs;
      assert [prs[0]][..0] == [];
      PrAddsAt(prs[0], filesOf(prs[0].prNumber), embed);
      IngestLogLength(prs[1..], filesOf, embed);
    }
  }

  /** Every add stores the embedding of one changed file of one merged pull
      request, under that pull request's id. */
  lemma {:induction false} IngestLogOrigin(prs: seq<MergedPr>, filesOf: Json -> seq<PullFile>, embed: string -> Embedding, k: nat)
    requires k < |IngestLog(prs, filesOf, embed)|
    ensures
      exists i, j :: 0 <= i < |prs| && 0 <= j < |filesOf(prs[i].prNumber)| &&
        IngestLog(prs, filesOf, embed)[k] ==
          VectorAdd(VectorId(prs[i].prNumber), embed(DocumentText(ChangeOf(filesOf(prs[i].prNumber)[j]))))
    decreases |prs|
  {
    var init, last := prs[..|prs| - 1], prs[|prs| - 1];
    var before := IngestLog(init, filesOf, embed);
    PrAddsAt(last, filesOf(last.prNumber), embed);
    if k < |before| {
      IngestLogOrigin(init, filesOf, embed, k);
      var i, j :| 0 <= i < |init| && 0 <= j < |filesOf(init[i].prNumber)| &&
        before[k] == VectorAdd(VectorId(init[i].prNumber), embed(DocumentText(ChangeOf(filesOf(init[i].prNumber)[j]))));
      assert init[i] == prs[i];
    } else {
      var j := k - |before|;
      PrAddsAt(last, filesOf(last.prNumber), embed);
      assert IngestLog(prs, filesOf, embed)[k] == PrAdds(last, filesOf(last.prNumber), embed)[j];
      assert prs[|prs| - 1] == last;
    }
  }

  /** Ingest the merged pull requests of a listing: every changed file of each
      is embedded and added under the pull request's id. The reported count is
      the number of merged pull requests, not the number of adds. */
  method AddToChroma(collection: Collection, closedPrs: Body, filesOf: Json -> seq<PullFile>, embed: string -> Embedding)
    returns (reported: Outcome<nat>)
    modifies collection
    ensures MergedPrs(closedPrs).Raised? ==>
      reported == Raised(MergedPrs(closedPrs).exc) && collection.adds == old(collection.adds)
    ensures MergedPrs(closedPrs).Returned? ==>
      reported == Returned(|MergedPrs(closedPrs).value|) &&
      collection.adds == old(collection.adds) + IngestLog(MergedPrs(closedPrs).value, filesOf, embed)
  {
    var fetched := GetMergedPrs(closedPrs);
    if fetched.Raised? {
      return Raised(fetched.exc);
    }
    AddMergedPrs(collection, fetched.value, filesOf, embed);
    return Returned(|fetched.value|);
  }

  /** The outer loop of ingestion: for each merged pull request, fetch its
      file changes and add them under its id. */
  method AddMergedPrs(collection: Collection, prs: seq<MergedPr>, filesOf: Json -> seq<PullFile>, embed: string -> Embedding)
    modifies collection
    ensures collection.adds == old(collection.adds) + IngestLog(prs, filesOf, embed)
  {
    for i := 0 to |prs|
      invariant collection.adds == old(collection.adds) + IngestLog(prs[..i], filesOf, embed)
    {
      var pr := prs[i];
      var changes := GetPrDiff(filesOf(pr.prNumber));
      ghost var done := IngestLog(prs[..i], filesOf, embed);
      AddChanges(collection, VectorId(pr.prNumber), changes, embed);
      ghost var added := PrAdds(pr, filesOf(pr.prNumber), embed);
      IngestLogStep(prs, i, filesOf, embed);
      AppendAssociative(old(collection.adds), done, added);
    }
    assert prs[..|prs|] == prs;
  }

  // ---------------------------------------------------------------------
  // Similarity search
  // ---------------------------------------------------------------------

  /** How many neighbours a search asks the store for. */
  const SEARCH_RESULTS: nat := 3

  datatype QueryRequest = QueryRequest(queryEmbeddings: seq<Embedding>, nResults: nat)
  /** The store's answer: one list of ids per query embedding, under "ids". */
  datatype QueryResult = QueryResult(ids: seq<seq<string>>)

  function SearchRequest(queryText: string, embed: string -> Embedding): (q: QueryRequest)
    ensures q.nResults == SEARCH_RESULTS && q.queryEmbeddings == [embed(queryText)]
  {
    QueryRequest([embed(queryText)], SEARCH_RESULTS)
  }

  /** The ids of the first query's matches, or none when "ids" is empty. */
  function MatchIds(results: QueryResult): (ids: seq<string>)
    ensures results.ids != [] ==> ids == results.ids[0]
    ensures results.ids == [] ==> ids == []
  {
    if results.ids != [] then results.ids[0] else []
  }

  function SearchConflicts(queryText: string, embed: string -> Embedding, query: QueryRequest -> QueryResult): seq<string> {
    MatchIds(query(SearchRequest(queryText, embed)))
  }

  /** The search makes one request, for three neighbours of the text's
      embedding, and returns the first id list of the answer: two stores that
      answer that request alike, or two texts with the same embedding, give
      the same matches, and an answer without id lists gives none. */
  lemma SearchConflictsDependsOnlyOnTheRequest(queryText: string, otherText: string, embed: string -> Embedding,
                                               query: QueryRequest -> QueryResult, other: QueryRequest -> QueryResult)
    requires embed(otherText) == embed(queryText)
    requires other(QueryRequest([embed(queryText)], 3)) == query(QueryRequest([embed(queryText)], 3))
    ensures SearchConflicts(otherText, embed, other) == SearchConflicts(queryText, embed, query)
    ensures var res := query(QueryRequest([embed(queryText)], 3));
      SearchConflicts(queryText, embed, query) == if res.ids == [] then [] else res.ids[0]
  {
  }

  /** The store never returns more matches per query embedding than asked for. */
  ghost predicate HonoursCount(query: QueryRequest -> QueryResult) {
    forall q: QueryRequest, l: seq<string> :: l in query(q).ids ==> |l| <= q.nResults
  }

  /** A store that honours the requested count returns at most three matches,
      each one an id it reported for the query. */
  lemma SearchConflictsBounded(queryText: string, embed: string -> Embedding, query: QueryRequest -> QueryResult)
    requires HonoursCount(query)
    ensures |SearchConflicts(queryText, embed, query)| <= SEARCH_RESULTS
    ensures forall id :: id in SearchConflicts(queryText, embed, query) ==>
      exists l :: l in query(SearchRequest(queryText, embed)).ids && id in l
  {
    var res := query(SearchRequest(queryText, embed));
    if res.ids != [] {
      assert res.ids[0] in res.ids;
    }
  }
}
