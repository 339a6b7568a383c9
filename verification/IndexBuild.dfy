/** The embedding index: a counter kept batch by batch, which must agree with a full recount. */
module IndexBuild {
  import opened Prelude

  type DocumentId = nat

  /** The index row's counter and state, and the documents that have an embedding row. */
  datatype Index = Index(rows: set<DocumentId>, embedded: nat, ready: bool)

  const EMPTY_INDEX: Index := Index({}, 0, false)

  datatype ProgressError = ExceedsCorpus | ReadyButMissing

  datatype BatchError = BadBatchSize

  /** One ingester's write: rows for the documents not embedded yet, and the counter advanced by their number. */
  function AfterBatch(total: nat, index: Index, documents: seq<DocumentId>): Result<Index, ProgressError> {
    var rows := index.rows + ToSet(documents);
    var embedded := index.embedded + (|rows| - |index.rows|);
    if embedded > total || embedded < 0 then Err(ExceedsCorpus)
    else Ok(Index(rows, embedded, index.ready || embedded == total))
  }

  /** A full recount. */
  function AfterRefresh(total: nat, index: Index): Result<Index, ProgressError> {
    if |index.rows| > total then Err(ExceedsCorpus)
    else if index.ready && |index.rows| < total then Err(ReadyButMissing)
    else Ok(Index(index.rows, |index.rows|, index.ready || |index.rows| == total))
  }

  // ---- Every interleaving of ingesters ----

  /** Ingesters run any number of these, each committed or not at all; an interrupted one just stops. */
  datatype Transaction = WriteBatch(documents: seq<DocumentId>) | Recount

  function Apply(total: nat, index: Index, t: Transaction): Result<Index, ProgressError> {
    match t
    case WriteBatch(documents) => AfterBatch(total, index, documents)
    case Recount => AfterRefresh(total, index)
  }

  /**
   * The counter is the recount, only corpus documents are embedded, and readiness is exact once anything is written.
   */
  predicate IndexInvariant(corpus: set<DocumentId>, index: Index) {
    && index.rows <= corpus
    && index.embedded == |index.rows|
    && (index.ready ==> index.rows == corpus)
    && (index.rows == corpus && corpus != {} ==> index.ready)
  }

  predicate OfCorpus(corpus: set<DocumentId>, t: Transaction) {
    t.WriteBatch? ==> ToSet(t.documents) <= corpus
  }

  lemma SubsetSize(a: set<DocumentId>, b: set<DocumentId>)
    requires a <= b
    ensures |a| <= |b|
    ensures |a| == |b| ==> a == b
  {
    assert b == a + (b - a);
  }

  /** No transaction raises, and each keeps the invariant. */
  lemma TransactionKeeps(corpus: set<DocumentId>, index: Index, t: Transaction)
    requires IndexInvariant(corpus, index) && OfCorpus(corpus, t)
    ensures Apply(|corpus|, index, t).Ok? && IndexInvariant(corpus, Apply(|corpus|, index, t).value)
    ensures index.rows <= Apply(|corpus|, index, t).value.rows
    ensures index.ready ==> Apply(|corpus|, index, t).value.ready
  {
    SubsetSize(index.rows, corpus);
    if t.WriteBatch? {
      SubsetSize(index.rows, index.rows + ToSet(t.documents));
      SubsetSize(index.rows + ToSet(t.documents), corpus);
    }
  }

  function Execute(total: nat, transactions: seq<Transaction>): Result<Index, ProgressError> {
    if transactions == [] then Ok(EMPTY_INDEX)
    else
      var before := Execute(total, transactions[..|transactions| - 1]);
      if before.Err? then before else Apply(total, before.value, transactions[|transactions| - 1])
  }

  /** How many rows the writes of a history inserted, as their counts were reported to the ingesters. */
  function Inserted(total: nat, transactions: seq<Transaction>): int {
    if transactions == [] then 0
    else
      var last := transactions[|transactions| - 1];
      var before := Execute(total, transactions[..|transactions| - 1]);
      Inserted(total, transactions[..|transactions| - 1])
      + if last.WriteBatch? && before.Ok? then |before.value.rows + ToSet(last.documents)| - |before.value.rows| else 0
  }

  /**
   * Over every interleaving and interruption of ingesters: nothing raises, the counter equals the recount, and the
   * insert counts of all attempts add up to it.
   */
  lemma {:induction false} CounterAlwaysAgrees(corpus: set<DocumentId>, transactions: seq<Transaction>)
    requires forall t <- transactions :: OfCorpus(corpus, t)
    ensures Execute(|corpus|, transactions).Ok?
    ensures IndexInvariant(corpus, Execute(|corpus|, transactions).value)
    ensures Inserted(|corpus|, transactions) == Execute(|corpus|, transactions).value.embedded
  {
    if transactions != [] {
      var last := |transactions| - 1;
      assert forall t <- transactions[..last] :: t in transactions;
      assert transactions[last] in transactions;
      CounterAlwaysAgrees(corpus, transactions[..last]);
      TransactionKeeps(corpus, Execute(|corpus|, transactions[..last]).value, transactions[last]);
    }
  }

  /**
   * The index is ready exactly when every document has its row and something was ever written or recounted; only the
   * empty corpus makes the second part matter. All attempts together then inserted one row for each document.
   */
  lemma {:induction false} ReadyExactly(corpus: set<DocumentId>, transactions: seq<Transaction>)
    requires forall t <- transactions :: OfCorpus(corpus, t)
    ensures Execute(|corpus|, transactions).Ok?
    ensures Execute(|corpus|, transactions).value.ready
       <==> Execute(|corpus|, transactions).value.rows == corpus && transactions != []
    ensures Execute(|corpus|, transactions).value.ready ==> Inserted(|corpus|, transactions) == |corpus|
  {
    CounterAlwaysAgrees(corpus, transactions);
    if transactions != [] && corpus == {} { EmptyCorpusIsReady(transactions); }
  }

  /** The empty corpus is complete before anything was written, and yet not ready. */
  lemma EmptyCorpusStartsUnready()
    ensures Execute(0, []).Ok? && Execute(0, []).value.rows == {} && !Execute(0, []).value.ready
  {}

  lemma EmptyCorpusIsReady(transactions: seq<Transaction>)
    requires transactions != [] && forall t <- transactions :: OfCorpus({}, t)
    ensures Execute(0, transactions).Ok? && Execute(0, transactions).value.ready
  {
    var last := |transactions| - 1;
    assert forall t <- transactions[..last] :: t in transactions;
    assert transactions[last] in transactions;
    CounterAlwaysAgrees({}, transactions[..last]);
    TransactionKeeps({}, Execute(0, transactions[..last]).value, transactions[last]);
  }

  // ---- Batches ----

  function Batches<T>(values: seq<T>, size: int): Result<seq<seq<T>>, BatchError> {
    if size <= 0 then Err(BadBatchSize) else Ok(Split(values, size))
  }

  function Split<T>(values: seq<T>, size: nat): seq<seq<T>>
    requires size > 0
  {
    if |values| <= size then (if values == [] then [] else [values])
    else [values[..size]] + Split(values[size..], size)
  }

  function Joined<T>(batches: seq<seq<T>>): seq<T> {
    if batches == [] then [] else batches[0] + Joined(batches[1..])
  }

  /** The batches are the values in order, cut into pieces that are neither empty nor larger than the batch size. */
  lemma {:induction false} BatchesMeaning<T>(values: seq<T>, size: nat)
    requires size > 0
    ensures Joined(Split(values, size)) == values
    ensures forall b <- Split(values, size) :: 1 <= |b| <= size
    ensures forall i :: 0 <= i < |Split(values, size)| - 1 ==> |Split(values, size)[i]| == size
    decreases |values|
  {
    if |values| > size {
      BatchesMeaning(values[size..], size);
      assert Split(values, size)[1..] == Split(values[size..], size);
      assert values == values[..size] + values[size..];
    } else if values != [] {
      assert Joined([values]) == values + Joined([values][1..]);
    }
  }

  lemma {:induction false} JoinedMembers<T>(batches: seq<seq<T>>, x: T)
    ensures x in Joined(batches) <==> exists b :: b in batches && x in b
  {
    if batches != [] {
      JoinedMembers(batches[1..], x);
      assert batches == [batches[0]] + batches[1..];
    }
  }

  lemma NoMembers(documents: seq<DocumentId>)
    ensures documents == [] <==> ToSet(documents) == {}
  {
    if documents != [] { assert documents[0] in ToSet(documents); }
  }

  // ---- One ingester among others ----

  class IndexStore {
    const total: nat
    var rows: set<DocumentId>
    var embedded: nat
    var ready: bool

    constructor (total: nat)
      ensures this.total == total && Contents() == EMPTY_INDEX
    {
      this.total := total;
      rows, embedded, ready := {}, 0, false;
    }

    function Contents(): Index
      reads this
    {
      Index(rows, embedded, ready)
    }

    /** The rows an insert adds: a document that has a row already, or came before in the same insert, is ignored. */
    method NewDocuments(documents: seq<DocumentId>) returns (inserted: set<DocumentId>)
      ensures inserted == ToSet(documents) - rows
    {
      inserted := {};
      for i := 0 to |documents|
        invariant inserted == ToSet(documents[..i]) - rows
      {
        assert documents[..i + 1] == documents[..i] + [documents[i]];
        if documents[i] !in rows { inserted := inserted + {documents[i]}; }
      }
      assert documents[..|documents|] == documents;
    }

    /** Insert what is missing and advance the counter, in one transaction. */
    method AddMissing(documents: seq<DocumentId>) returns (r: Result<int, ProgressError>)
      modifies this
      ensures var after := AfterBatch(total, old(Contents()), documents);
              && (r.Ok? <==> after.Ok?)
              && Contents() == (if after.Ok? then after.value else old(Contents()))
              && (r.Ok? ==> r.value == |rows| - |old(rows)|)
    {
      var inserted := NewDocuments(documents);
      assert rows + inserted == rows + ToSet(documents);
      assert |rows + inserted| == |rows| + |inserted|;
      if embedded + |inserted| > total { return Err(ExceedsCorpus); }
      rows := rows + inserted;
      embedded := embedded + |inserted|;
      if embedded == total && !ready { ready := true; }
      return Ok(|inserted|);
    }

    method RefreshProgress() returns (error: Option<ProgressError>)
      modifies this
      ensures var after := AfterRefresh(total, old(Contents()));
              && error == (if after.Ok? then None else Some(after.error))
              && Contents() == (if after.Ok? then after.value else old(Contents()))
    {
      var count := |rows|;
      if count > total { return Some(ExceedsCorpus); }
      if ready && count < total { return Some(ReadyButMissing); }
      embedded := count;
      if count == total && !ready { ready := true; }
      return None;
    }

    /** What other ingesters commit between two of this one's transactions. */
    method Interfere(others: seq<Transaction>, ghost corpus: set<DocumentId>)
      requires total == |corpus| && IndexInvariant(corpus, Contents()) && forall t <- others :: OfCorpus(corpus, t)
      modifies this
      ensures IndexInvariant(corpus, Contents()) && old(rows) <= rows && (old(ready) ==> ready)
    {
      for i := 0 to |others|
        invariant IndexInvariant(corpus, Contents()) && old(rows) <= rows && (old(ready) ==> ready)
      {
        assert others[i] in others;
        TransactionKeeps(corpus, Contents(), others[i]);
        if others[i].WriteBatch? {
          var _ := AddMissing(others[i].documents);
        } else {
          var _ := RefreshProgress();
        }
      }
    }

    /** Look which documents of a batch are missing, let the others commit, then write those that were. */
    method EmbedBatch(batch: seq<DocumentId>, others: seq<Transaction>, ghost corpus: set<DocumentId>)
      returns (inserted: int)
      requires total == |corpus| && IndexInvariant(corpus, Contents())
      requires ToSet(batch) <= corpus && forall t <- others :: OfCorpus(corpus, t)
      modifies this
      ensures IndexInvariant(corpus, Contents()) && old(rows) <= rows && ToSet(batch) <= rows
      ensures 0 <= inserted <= |rows| - |old(rows)|
    {
      var missing := Missing(batch, rows);
      ghost var before := rows;
      Interfere(others, corpus);
      SubsetSize(before, rows);
      if missing == [] {
        NoMembers(missing);
        return 0;
      }
      ghost var meanwhile := rows;
      TransactionKeeps(corpus, Contents(), WriteBatch(missing));
      var result := AddMissing(missing);
      SubsetSize(meanwhile, rows);
      inserted := result.value;
    }

    /**
     * One ingester's pass over the corpus, dying after `lifetime` batches. A pass that is not cut short leaves every
     * document embedded, whatever the others did meanwhile; no pass ever raises.
     */
    method EmbedMissing(order: seq<DocumentId>, size: nat, others: nat -> seq<Transaction>, lifetime: nat)
      returns (inserted: int, finished: bool)
      requires size > 0 && total == |ToSet(order)| && IndexInvariant(ToSet(order), Contents())
      requires forall i, t :: t in others(i) ==> OfCorpus(ToSet(order), t)
      modifies this
      ensures IndexInvariant(ToSet(order), Contents()) && old(rows) <= rows
      ensures finished <==> lifetime >= |Split(order, size)|
      ensures finished ==> rows == ToSet(order)
      ensures 0 <= inserted <= |rows| - |old(rows)|
    {
      var batches := Split(order, size);
      BatchesMeaning(order, size);
      inserted := 0;
      finished := lifetime >= |batches|;
      for i := 0 to |batches|
        invariant IndexInvariant(ToSet(order), Contents()) && old(rows) <= rows
        invariant forall k :: 0 <= k < i ==> ToSet(batches[k]) <= rows
        invariant 0 <= inserted <= |rows| - |old(rows)|
        invariant i <= lifetime
      {
        if i == lifetime { return; }
        BatchIsOfCorpus(order, batches, i);
        var count := EmbedBatch(batches[i], others(i), ToSet(order));
        inserted := inserted + count;
      }
      AllBatchesAllRows(order, batches, rows);
    }

    /**
     * A whole ingest: the pass over the corpus, and then a recount, with others at work before every transaction. It
     * dies after `lifetime` transactions, or refuses its batch size and leaves the index alone. An ingest that is not
     * cut short leaves the index ready with one row for each document and an exact count, and no ingest ever raises.
     */
    method Ingest(order: seq<DocumentId>, size: int, others: nat -> seq<Transaction>, lifetime: nat)
      returns (inserted: int, finished: bool, error: Option<BatchError>)
      requires total == |ToSet(order)| && IndexInvariant(ToSet(order), Contents())
      requires forall i, t :: t in others(i) ==> OfCorpus(ToSet(order), t)
      modifies this
      ensures error == if Batches(order, size).Err? then Some(Batches(order, size).error) else None
      ensures error.Some? ==> Contents() == old(Contents()) && !finished
      ensures error.None? ==> (finished <==> lifetime > |Batches(order, size).value|)
      ensures finished ==> Contents() == Index(ToSet(order), |ToSet(order)|, true)
      ensures IndexInvariant(ToSet(order), Contents()) && old(rows) <= rows
      ensures 0 <= inserted <= |rows| - |old(rows)|
    {
      if size <= 0 { return 0, false, Some(BadBatchSize); }
      var batches := Split(order, size);
      error := None;
      inserted, finished := EmbedMissing(order, size, others, lifetime);
      if lifetime <= |batches| { return inserted, false, None; }
      ghost var embedded := rows;
      Interfere(others(|batches|), ToSet(order));
      SubsetSize(embedded, rows);
      TransactionKeeps(ToSet(order), Contents(), Recount);
      var failure := RefreshProgress();
      assert failure == None;
    }
  }

  /** The documents of a batch that were not embedded when the ingester looked. */
  function Missing(batch: seq<DocumentId>, rows: set<DocumentId>): (r: seq<DocumentId>)
    ensures forall d :: d in r <==> d in batch && d !in rows
  {
    if batch == [] then []
    else
      var last := batch[|batch| - 1];
      assert batch == batch[..|batch| - 1] + [last];
      Missing(batch[..|batch| - 1], rows) + (if last in rows then [] else [last])
  }

  lemma BatchIsOfCorpus(order: seq<DocumentId>, batches: seq<seq<DocumentId>>, i: nat)
    requires Joined(batches) == order && i < |batches|
    ensures ToSet(batches[i]) <= ToSet(order)
  {
    forall d | d in batches[i] ensures d in order {
      JoinedMembers(batches, d);
    }
  }

  lemma AllBatchesAllRows(order: seq<DocumentId>, batches: seq<seq<DocumentId>>, rows: set<DocumentId>)
    requires Joined(batches) == order && rows <= ToSet(order)
    requires forall k :: 0 <= k < |batches| ==> ToSet(batches[k]) <= rows
    ensures rows == ToSet(order)
  {
    forall d | d in order ensures d in rows {
      JoinedMembers(batches, d);
      var b :| b in batches && d in b;
      assert d in ToSet(b);
    }
  }
}
