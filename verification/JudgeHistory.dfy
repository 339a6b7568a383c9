/** Any number of requests to one caching judge, while other processes insert verdicts of their own. */
module JudgeHistory {
  import opened GenerationContract
  import opened Pricing
  import opened JudgeCaching

  /** One request, and the verdicts that others insert while it is under way. */
  datatype Call = Call(request: JudgeRequest, arrivals: VerdictCache)

  /** A judge, the verdicts stored at first, and the requests made one after the other. */
  datatype Session = Session(own: JudgeIdentity, behaviour: JudgeBehaviour, start: VerdictCache, calls: seq<Call>)

  /** What the judge was asked and charged so far, what of that the replies carried, and what is stored. */
  datatype Account = Account(calls: nat, spent: Usage, reported: Usage, unreported: Usage, cache: VerdictCache)

  function Serve(s: Session, a: Account, call: Call): JudgeService {
    ServeVerdict(s.own, s.behaviour, a.calls, a.cache, call.arrivals, call.request)
  }

  function Lost(s: Session, a: Account, call: Call): Usage {
    Unreported(s.own, s.behaviour, a.calls, a.cache, call.request)
  }

  /** The account after one more request. */
  function Charge(s: Session, a: Account, call: Call): Account {
    var served := Serve(s, a, call);
    Account(a.calls + served.calls, Combine(a.spent, served.spent), Combine(a.reported, ReplyUsage(served.reply)),
            Combine(a.unreported, Lost(s, a, call)), served.cache)
  }

  /** The account before the k-th request. */
  function Before(s: Session, k: nat): Account
    requires k <= |s.calls|
  {
    if k == 0 then Account(0, NO_USAGE, NO_USAGE, NO_USAGE, s.start)
    else Charge(s, Before(s, k - 1), s.calls[k - 1])
  }

  /** How the i-th request is served. */
  function Served(s: Session, i: nat): JudgeService
    requires i < |s.calls|
  {
    Serve(s, Before(s, i), s.calls[i])
  }

  function Key(s: Session, i: nat): JudgeKey
    requires i < |s.calls|
  {
    JudgeKey(s.own, s.calls[i].request.prompt)
  }

  // ---- The cache is immutable ----

  lemma CallStores(s: Session, a: Account, call: Call)
    ensures var served, key := Serve(s, a, call), JudgeKey(s.own, call.request.prompt);
            && Charge(s, a, call).cache == served.cache
            && VerdictsKept(a.cache, served.cache)
            && (!served.reply.Judged? ==> served.cache == call.arrivals + a.cache)
            && (served.reply.Judged? ==> key in served.cache)
            && (forall other <- served.cache :: other !in a.cache && other !in call.arrivals ==>
                  other == key && served.reply == Judged(served.cache[other]))
  {
    ServiceStores(s.own, s.behaviour, a.calls, a.cache, call.arrivals, call.request);
  }

  /** What the i-th request does to the cache; a failure leaves what was there and what others inserted. */
  lemma RequestStores(s: Session, i: nat)
    requires i < |s.calls|
    ensures VerdictsKept(Before(s, i).cache, Before(s, i + 1).cache)
    ensures Served(s, i).reply.Judged? ==> Key(s, i) in Before(s, i + 1).cache
    ensures !Served(s, i).reply.Judged? ==> Before(s, i + 1).cache == s.calls[i].arrivals + Before(s, i).cache
    ensures forall key <- Before(s, i + 1).cache :: key !in Before(s, i).cache && key !in s.calls[i].arrivals ==>
              key == Key(s, i) && Served(s, i).reply == Judged(Before(s, i + 1).cache[key])
  {
    CallStores(s, Before(s, i), s.calls[i]);
    assert Before(s, i + 1).cache == Served(s, i).cache;
  }

  lemma KeptTransitive(a: VerdictCache, b: VerdictCache, c: VerdictCache)
    requires VerdictsKept(a, b) && VerdictsKept(b, c)
    ensures VerdictsKept(a, c)
  {}

  /** No stored verdict is ever replaced or removed, whatever is asked, answered or inserted later. */
  lemma {:induction false} StoredVerdictsStay(s: Session, i: nat, k: nat)
    requires i <= k <= |s.calls|
    ensures VerdictsKept(Before(s, i).cache, Before(s, k).cache)
    decreases k - i
  {
    if i < k {
      StoredVerdictsStay(s, i + 1, k);
      RequestStores(s, i);
      KeptTransitive(Before(s, i).cache, Before(s, i + 1).cache, Before(s, k).cache);
    }
  }

  /**
   * Once a prompt has been judged, the verdict then stored for it answers every later request for that prompt, under
   * whatever identity it is traced, without asking the judge and at no cost. It is the verdict delivered then, unless
   * the prompt had been judged before.
   */
  lemma JudgedOnceJudgedForever(s: Session, i: nat, j: nat)
    requires i < j < |s.calls| && s.calls[j].request.prompt == s.calls[i].request.prompt
    requires Served(s, i).reply.Judged?
    ensures var stored := Before(s, i + 1).cache;
            && Key(s, i) in stored
            && Served(s, j).reply == Judged(FreeVerdict(stored[Key(s, i)]))
            && Served(s, j).calls == 0 && Served(s, j).spent == NO_USAGE
            && (Key(s, i) !in Before(s, i).cache && Key(s, i) !in s.calls[i].arrivals ==>
                  Served(s, i).reply == Judged(stored[Key(s, i)]))
  {
    RequestStores(s, i);
    StoredVerdictsStay(s, i + 1, j);
  }

  /** The verdict was there at first, was inserted by others, or was delivered by a request for its prompt. */
  predicate HasOrigin(s: Session, k: nat, key: JudgeKey, verdict: Verdict)
    requires k <= |s.calls|
  {
    || (key in s.start && s.start[key] == verdict)
    || exists i :: 0 <= i < k && (InsertedBy(s, i, key, verdict) || (Key(s, i) == key && DeliveredBy(s, i, verdict)))
  }

  predicate InsertedBy(s: Session, i: nat, key: JudgeKey, verdict: Verdict)
    requires i < |s.calls|
  {
    key in s.calls[i].arrivals && s.calls[i].arrivals[key] == verdict
  }

  predicate DeliveredBy(s: Session, i: nat, verdict: Verdict)
    requires i < |s.calls|
  {
    Served(s, i).reply == Judged(verdict)
  }

  /** Failures are never stored, and neither is anything else but delivered verdicts. */
  lemma {:induction false} OnlyVerdictsAreStored(s: Session, k: nat, key: JudgeKey)
    requires k <= |s.calls| && key in Before(s, k).cache
    ensures HasOrigin(s, k, key, Before(s, k).cache[key])
  {
    if k > 0 {
      var i := k - 1;
      RequestStores(s, i);
      if key in Before(s, i).cache {
        OnlyVerdictsAreStored(s, i, key);
      } else {
        EntersWithRequest(s, i, key);
      }
    }
  }

  lemma EntersWithRequest(s: Session, i: nat, key: JudgeKey)
    requires i < |s.calls| && key in Before(s, i + 1).cache && key !in Before(s, i).cache
    ensures var verdict := Before(s, i + 1).cache[key];
            InsertedBy(s, i, key, verdict) || (Key(s, i) == key && DeliveredBy(s, i, verdict))
  {
    RequestStores(s, i);
  }

  /** No request asks the judge more than twice, and one whose prompt is stored does not ask at all. */
  lemma AtMostTwoCallsEach(s: Session, i: nat)
    requires i < |s.calls|
    ensures Before(s, i + 1).calls <= Before(s, i).calls + 2
    ensures Before(s, i + 1).calls == Before(s, i).calls <==> Key(s, i) in Before(s, i).cache
    ensures var first := s.behaviour(Before(s, i).calls, s.calls[i].request);
            Before(s, i + 1).calls == Before(s, i).calls + 2
            <==> Key(s, i) !in Before(s, i).cache && first.Refused? && first.failure.outcome == SchemaError
  {}

  // ---- Do stored verdicts match their keys? ----

  predicate MatchingArrivals(s: Session) {
    forall c <- s.calls :: VerdictsMatch(c.arrivals)
  }

  /** The i-th request stores a verdict under a key it does not match. */
  predicate MismatchAt(s: Session, i: nat)
    requires i < |s.calls|
  {
    var a := Before(s, i);
    StoresMismatch(s.own, s.behaviour, a.calls, a.cache, s.calls[i].arrivals, s.calls[i].request)
  }

  lemma RequestMatches(s: Session, i: nat)
    requires i < |s.calls| && MatchingArrivals(s) && VerdictsMatch(Before(s, i).cache)
    ensures VerdictsMatch(Before(s, i + 1).cache) <==> !MismatchAt(s, i)
  {
    var a := Before(s, i);
    assert s.calls[i] in s.calls;
    CacheMatchesExactly(s.own, s.behaviour, a.calls, a.cache, s.calls[i].arrivals, s.calls[i].request);
  }

  lemma MismatchStays(before: VerdictCache, after: VerdictCache)
    requires VerdictsKept(before, after) && !VerdictsMatch(before)
    ensures !VerdictsMatch(after)
  {
    var key :| key in before && !VerdictMatches(key, before[key]);
    assert !VerdictMatches(key, after[key]);
  }

  predicate NoneMismatches(s: Session, k: nat)
    requires k <= |s.calls|
  {
    forall i :: 0 <= i < k ==> !MismatchAt(s, i)
  }

  lemma OneMoreMismatches(s: Session, i: nat)
    requires i < |s.calls|
    ensures NoneMismatches(s, i + 1) <==> NoneMismatches(s, i) && !MismatchAt(s, i)
  {}

  lemma RequestMatchesExactly(s: Session, i: nat)
    requires i < |s.calls| && MatchingArrivals(s)
    ensures VerdictsMatch(Before(s, i + 1).cache) <==> VerdictsMatch(Before(s, i).cache) && !MismatchAt(s, i)
  {
    if VerdictsMatch(Before(s, i).cache) {
      RequestMatches(s, i);
    } else {
      RequestStores(s, i);
      MismatchStays(Before(s, i).cache, Before(s, i + 1).cache);
    }
  }

  /** Every stored verdict names the judge and the prompt of its key exactly while no request has stored another. */
  lemma {:induction false} VerdictsMatchExactly(s: Session, k: nat)
    requires k <= |s.calls| && VerdictsMatch(s.start) && MatchingArrivals(s)
    ensures VerdictsMatch(Before(s, k).cache) <==> NoneMismatches(s, k)
  {
    if k > 0 {
      var i := k - 1;
      VerdictsMatchExactly(s, i);
      RequestMatchesExactly(s, i);
      OneMoreMismatches(s, i);
    }
  }

  /** A judge that says truthfully who it is and what it was asked. */
  ghost predicate Honest(own: JudgeIdentity, behaviour: JudgeBehaviour) {
    forall n, request :: behaviour(n, request).Judged? ==>
      behaviour(n, request).verdict.judge == own && behaviour(n, request).verdict.renderedPrompt == request.prompt
  }

  lemma HonestyMatches(own: JudgeIdentity, behaviour: JudgeBehaviour, n: nat, cache: VerdictCache,
                       arrivals: VerdictCache, request: JudgeRequest)
    requires Honest(own, behaviour)
    ensures !StoresMismatch(own, behaviour, n, cache, arrivals, request)
  {
    var first, second := behaviour(n, request), behaviour(n + 1, RepairPrompt(request));
    if IsSchemaFailure(first) && second.Judged? {
      assert second.verdict.judge == own;
    }
  }

  /** With an honest judge that is always so. */
  lemma HonestVerdictsMatch(s: Session, k: nat)
    requires k <= |s.calls| && VerdictsMatch(s.start) && MatchingArrivals(s) && Honest(s.own, s.behaviour)
    ensures VerdictsMatch(Before(s, k).cache)
  {
    forall i | 0 <= i < k ensures !MismatchAt(s, i) {
      var a := Before(s, i);
      HonestyMatches(s.own, s.behaviour, a.calls, a.cache, s.calls[i].arrivals, s.calls[i].request);
    }
    VerdictsMatchExactly(s, k);
  }

  // ---- Is all usage reported? ----

  predicate LosesAt(s: Session, i: nat)
    requires i < |s.calls|
  {
    var a := Before(s, i);
    LosesUsage(s.own, s.behaviour, a.calls, a.cache, s.calls[i].request)
  }

  lemma CallSplits(s: Session, a: Account, call: Call)
    requires a.spent == Combine(a.reported, a.unreported)
    ensures Charge(s, a, call).spent == Combine(Charge(s, a, call).reported, Charge(s, a, call).unreported)
  {
    JudgingAccounts(s.own, s.behaviour, a.calls, a.cache, call.arrivals, call.request);
    Interchange(a.reported, a.unreported, ReplyUsage(Serve(s, a, call).reply), Lost(s, a, call));
  }

  lemma {:induction false} SpendIsSplit(s: Session, k: nat)
    requires k <= |s.calls|
    ensures Before(s, k).spent == Combine(Before(s, k).reported, Before(s, k).unreported)
  {
    if k == 0 {
      CombineIsAMonoid(NO_USAGE, NO_USAGE, NO_USAGE);
    } else {
      SpendIsSplit(s, k - 1);
      CallSplits(s, Before(s, k - 1), s.calls[k - 1]);
    }
  }

  lemma CallLoses(s: Session, a: Account, call: Call)
    ensures Charge(s, a, call).unreported == NO_USAGE
       <==> a.unreported == NO_USAGE && !LosesUsage(s.own, s.behaviour, a.calls, a.cache, call.request)
  {
    UnreportedExactly(s.own, s.behaviour, a.calls, a.cache, call.request);
    CombineIsNothing(a.unreported, Lost(s, a, call));
  }

  lemma RequestLoses(s: Session, i: nat)
    requires i < |s.calls|
    ensures Before(s, i + 1).unreported == NO_USAGE <==> Before(s, i).unreported == NO_USAGE && !LosesAt(s, i)
  {
    CallLoses(s, Before(s, i), s.calls[i]);
  }

  predicate NoneLoses(s: Session, k: nat)
    requires k <= |s.calls|
  {
    forall i :: 0 <= i < k ==> !LosesAt(s, i)
  }

  lemma OneMoreLoses(s: Session, i: nat)
    requires i < |s.calls|
    ensures NoneLoses(s, i + 1) <==> NoneLoses(s, i) && !LosesAt(s, i)
  {}

  lemma {:induction false} NothingLost(s: Session, k: nat)
    requires k <= |s.calls|
    ensures Before(s, k).unreported == NO_USAGE <==> NoneLoses(s, k)
  {
    if k > 0 {
      var i := k - 1;
      NothingLost(s, i);
      RequestLoses(s, i);
      OneMoreLoses(s, i);
    }
  }

  /**
   * Over any requests to any judge, the verdicts and failures that come back report all usage that was charged exactly
   * when none of the requests was one that loses usage.
   */
  lemma UsageIsConserved(s: Session, k: nat)
    requires k <= |s.calls|
    ensures Before(s, k).spent == Combine(Before(s, k).reported, Before(s, k).unreported)
    ensures Before(s, k).spent == Before(s, k).reported <==> NoneLoses(s, k)
  {
    SpendIsSplit(s, k);
    NothingLost(s, k);
    CombineAddsSomething(Before(s, k).reported, Before(s, k).unreported);
  }
}
