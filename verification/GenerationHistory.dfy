/** Any number of requests to one caching generator, while other processes insert results of their own. */
module GenerationHistory {
  import opened GenerationContract
  import opened Pricing
  import opened GenerationCaching

  /** One request, and the results that others insert while it is under way. */
  datatype Call = Call(request: Request, arrivals: Cache)

  /** A provider, the results stored at first, and the requests made one after the other. */
  datatype Session = Session(own: Provenance, behaviour: Behaviour, start: Cache, calls: seq<Call>)

  /** What the provider was asked and charged so far, what of that the replies carried, and what is stored. */
  datatype Account = Account(calls: nat, spent: Usage, reported: Usage, unreported: Usage, cache: Cache)

  function ServeCall(s: Session, a: Account, call: Call): Service {
    Serve(s.own, s.behaviour, a.calls, a.cache, call.arrivals, call.request)
  }

  function Lost(s: Session, a: Account, call: Call): Usage {
    Unreported(s.own, s.behaviour, a.calls, a.cache, call.request)
  }

  /** The account after one more request. */
  function Charge(s: Session, a: Account, call: Call): Account {
    var served := ServeCall(s, a, call);
    Account(a.calls + served.calls, Combine(a.spent, served.spent), Combine(a.reported, UsageOf(served.reply)),
            Combine(a.unreported, Lost(s, a, call)), served.cache)
  }

  /** The account before the k-th request. */
  function Before(s: Session, k: nat): Account
    requires k <= |s.calls|
  {
    if k == 0 then Account(0, NO_USAGE, NO_USAGE, NO_USAGE, s.start)
    else Charge(s, Before(s, k - 1), s.calls[k - 1])
  }

  /** How the i-th request is served. */
  function Served(s: Session, i: nat): Service
    requires i < |s.calls|
  {
    ServeCall(s, Before(s, i), s.calls[i])
  }

  function Key(s: Session, i: nat): CacheKey
    requires i < |s.calls|
  {
    CacheKey(s.own, s.calls[i].request.prompt)
  }

  // ---- Usage ----

  /** The i-th request is one that loses usage. */
  predicate LosesAt(s: Session, i: nat)
    requires i < |s.calls|
  {
    var a := Before(s, i);
    Loses(s.own, s.behaviour, a.calls, a.cache, s.calls[i].request)
  }

  predicate NoneLoses(s: Session, k: nat)
    requires k <= |s.calls|
  {
    forall i :: 0 <= i < k ==> !LosesAt(s, i)
  }

  lemma OneMoreLoses(s: Session, i: nat)
    requires i < |s.calls|
    ensures NoneLoses(s, i + 1) <==> NoneLoses(s, i) && !LosesAt(s, i)
  {}

  lemma CallSplits(s: Session, a: Account, call: Call)
    requires a.spent == Combine(a.reported, a.unreported)
    ensures Charge(s, a, call).spent == Combine(Charge(s, a, call).reported, Charge(s, a, call).unreported)
  {
    ServiceAccounts(s.own, s.behaviour, a.calls, a.cache, call.arrivals, call.request);
    Interchange(a.reported, a.unreported, UsageOf(ServeCall(s, a, call).reply), Lost(s, a, call));
  }

  lemma {:induction false} SpendIsSplit(s: Session, k: nat)
    requires k <= |s.calls|
    ensures Before(s, k).spent == Combine(Before(s, k).reported, Before(s, k).unreported)
  {
    if k == 0 {
      CombineIsAMonoid(NO_USAGE, NO_USAGE, NO_USAGE);
    } else {
      SpendIsSplit(s, k - 1);
      CallSplits(s, Before(s, k - 1), s.calls[k - 1]);
    }
  }

  lemma CallLoses(s: Session, a: Account, call: Call)
    ensures Charge(s, a, call).unreported == NO_USAGE
       <==> a.unreported == NO_USAGE && !Loses(s.own, s.behaviour, a.calls, a.cache, call.request)
  {
    UnreportedExactly(s.own, s.behaviour, a.calls, a.cache, call.request);
    CombineIsNothing(a.unreported, Lost(s, a, call));
  }

  lemma RequestLoses(s: Session, i: nat)
    requires i < |s.calls|
    ensures Before(s, i + 1).unreported == NO_USAGE <==> Before(s, i).unreported == NO_USAGE && !LosesAt(s, i)
  {
    CallLoses(s, Before(s, i), s.calls[i]);
  }

  lemma {:induction false} NothingLost(s: Session, k: nat)
    requires k <= |s.calls|
    ensures Before(s, k).unreported == NO_USAGE <==> NoneLoses(s, k)
  {
    if k > 0 {
      var i := k - 1;
      NothingLost(s, i);
      RequestLoses(s, i);
      OneMoreLoses(s, i);
    }
  }

  /**
   * Over any requests to any provider, the replies, results and failures alike, report all usage that was charged
   * exactly when none of the requests was one that loses usage.
   */
  lemma UsageIsConserved(s: Session, k: nat)
    requires k <= |s.calls|
    ensures Before(s, k).spent == Combine(Before(s, k).reported, Before(s, k).unreported)
    ensures Before(s, k).spent == Before(s, k).reported <==> NoneLoses(s, k)
  {
    SpendIsSplit(s, k);
    NothingLost(s, k);
    CombineAddsSomething(Before(s, k).reported, Before(s, k).unreported);
  }

  /** No request calls the provider more than twice, and one whose prompt is stored does not call it at all. */
  lemma AtMostTwoCallsEach(s: Session, i: nat)
    requires i < |s.calls|
    ensures Before(s, i + 1).calls <= Before(s, i).calls + 2
    ensures Before(s, i + 1).calls == Before(s, i).calls <==> Key(s, i) in Before(s, i).cache
    ensures var first := s.behaviour(Before(s, i).calls, s.calls[i].request);
            Before(s, i + 1).calls == Before(s, i).calls + 2
            <==> Key(s, i) !in Before(s, i).cache && first.Failed? && first.failure.outcome == SchemaError
  {}

  // ---- The cache ----

  predicate HonestArrivals(s: Session) {
    forall c <- s.calls :: CacheInvariant(c.arrivals)
  }

  lemma CallKeeps(s: Session, a: Account, call: Call)
    ensures Kept(a.cache, Charge(s, a, call).cache)
    ensures CacheInvariant(a.cache) && CacheInvariant(call.arrivals) ==> CacheInvariant(Charge(s, a, call).cache)
  {
    ServiceKeepsCache(s.own, s.behaviour, a.calls, a.cache, call.arrivals, call.request);
  }

  lemma RequestKeeps(s: Session, i: nat)
    requires i < |s.calls|
    ensures Kept(Before(s, i).cache, Before(s, i + 1).cache)
  {
    CallKeeps(s, Before(s, i), s.calls[i]);
  }

  lemma RequestStaysValid(s: Session, i: nat)
    requires i < |s.calls| && HonestArrivals(s) && CacheInvariant(Before(s, i).cache)
    ensures CacheInvariant(Before(s, i + 1).cache)
  {
    assert s.calls[i] in s.calls;
    CallKeeps(s, Before(s, i), s.calls[i]);
  }

  /** No stored result is ever replaced or removed, whatever is requested, answered or inserted later. */
  lemma {:induction false} CacheIsImmutable(s: Session, i: nat, k: nat)
    requires i <= k <= |s.calls|
    ensures Kept(Before(s, i).cache, Before(s, k).cache)
    decreases k - i
  {
    if i < k {
      CacheIsImmutable(s, i + 1, k);
      RequestKeeps(s, i);
      KeptTransitive(Before(s, i).cache, Before(s, i + 1).cache, Before(s, k).cache);
    }
  }

  /** Every stored result names the model of its key, as long as others insert only such results. */
  lemma {:induction false} CacheStaysValid(s: Session, k: nat)
    requires k <= |s.calls| && CacheInvariant(s.start) && HonestArrivals(s)
    ensures CacheInvariant(Before(s, k).cache)
  {
    if k > 0 {
      var i := k - 1;
      CacheStaysValid(s, i);
      RequestStaysValid(s, i);
    }
  }

  /** A failed request leaves what was there and what others inserted; after a successful one its key is stored. */
  lemma OnlySuccessIsStored(s: Session, i: nat)
    requires i < |s.calls|
    ensures !Served(s, i).reply.Generated? ==> Before(s, i + 1).cache == Arrive(Before(s, i).cache, s.calls[i].arrivals)
    ensures Served(s, i).reply.Generated? ==> Key(s, i) in Before(s, i + 1).cache
  {
    var a := Before(s, i);
    SuccessIsStored(s.own, s.behaviour, a.calls, a.cache, s.calls[i].arrivals, s.calls[i].request);
  }

  /** What a stored result answers with: itself, unless it is another model's. */
  function FromStored(own: Provenance, stored: GenerationResult): Reply {
    if stored.provenance == own then Generated(FromCache(stored)) else Broken
  }

  lemma HitServes(s: Session, a: Account, call: Call)
    requires CacheKey(s.own, call.request.prompt) in a.cache
    ensures ServeCall(s, a, call).calls == 0 && ServeCall(s, a, call).spent == NO_USAGE
    ensures ServeCall(s, a, call).reply == FromStored(s.own, a.cache[CacheKey(s.own, call.request.prompt)])
  {}

  /**
   * Once a prompt has been answered, the result then stored for it answers every later request for it, under whatever
   * identity it is traced, at no cost and with no provider call; only a result of another model that someone else
   * inserted raises an error instead.
   */
  lemma AnsweredOnceAnsweredForever(s: Session, i: nat, j: nat)
    requires i < j < |s.calls| && s.calls[j].request.prompt == s.calls[i].request.prompt
    requires Served(s, i).reply.Generated?
    ensures Key(s, i) in Before(s, i + 1).cache
    ensures Served(s, j).reply == FromStored(s.own, Before(s, i + 1).cache[Key(s, i)])
    ensures Served(s, j).calls == 0 && Served(s, j).spent == NO_USAGE
  {
    OnlySuccessIsStored(s, i);
    CacheIsImmutable(s, i + 1, j);
    HitServes(s, Before(s, j), s.calls[j]);
  }

  /** With honest arrivals that error never comes. */
  lemma StoredResultsAnswer(s: Session, i: nat)
    requires i < |s.calls| && Key(s, i) in Before(s, i).cache && CacheInvariant(s.start) && HonestArrivals(s)
    ensures Served(s, i).reply == Generated(FromCache(Before(s, i).cache[Key(s, i)]))
  {
    CacheStaysValid(s, i);
    HitServes(s, Before(s, i), s.calls[i]);
  }
}
