/** Judging through a cache, over a single repair attempt: the stored verdict names the prompt it was asked for. */
module JudgeCaching {
  import opened Prelude
  import opened GenerationContract
  import opened Pricing
  import opened GenerationCaching

  datatype JudgePrompt = JudgePrompt(system: string, user: seq<Part>, version: string)

  datatype JudgeRequest = JudgeRequest(prompt: JudgePrompt, traceId: string)

  /** A judge's identity; the prompt version is its own, not the request's. */
  datatype JudgeIdentity = JudgeIdentity(provenance: Provenance, promptVersion: string)

  datatype Verdict = Verdict(
    faithfulness: real, relevance: real, judge: JudgeIdentity, renderedPrompt: JudgePrompt, usage: Usage,
    requestId: Option<string>, cacheHit: bool)

  datatype JudgeReply = Judged(verdict: Verdict) | Refused(failure: Failure) | Raised

  function ReplyUsage(reply: JudgeReply): Usage {
    match reply
    case Judged(verdict) => verdict.usage
    case Refused(failure) => failure.usage
    case Raised => NO_USAGE
  }

  predicate IsSchemaFailure(reply: JudgeReply) {
    reply.Refused? && reply.failure.outcome.SchemaError?
  }

  type JudgeBehaviour = (nat, JudgeRequest) -> JudgeReply

  // ---- Repair ----

  function RepairPrompt(request: JudgeRequest): JudgeRequest {
    request.(prompt := request.prompt.(user := request.prompt.user + [RepairInstruction]))
  }

  datatype JudgeExchange = JudgeExchange(reply: JudgeReply, calls: nat, spent: Usage)

  /** The repaired verdict is made out to the original prompt, and both attempts are charged. */
  function Restored(reply: JudgeReply, usage: Usage, prompt: JudgePrompt): JudgeReply {
    match reply
    case Judged(verdict) => Judged(verdict.(renderedPrompt := prompt, usage := usage))
    case Refused(failure) => Refused(failure.(usage := usage))
    case Raised => Raised
  }

  function JudgedWithRepair(behaviour: JudgeBehaviour, n: nat, request: JudgeRequest): JudgeExchange {
    var first := behaviour(n, request);
    if !IsSchemaFailure(first) then JudgeExchange(first, 1, ReplyUsage(first))
    else
      var second := behaviour(n + 1, RepairPrompt(request));
      var spent := Combine(ReplyUsage(first), ReplyUsage(second));
      JudgeExchange(Restored(second, spent, request.prompt), 2, spent)
  }

  /** The repaired prompt is a different one, so without the restoration the verdict would name the wrong prompt. */
  lemma RepairChangesThePrompt(request: JudgeRequest)
    ensures RepairPrompt(request).prompt != request.prompt
  {
    assert |RepairPrompt(request).prompt.user| == |request.prompt.user| + 1;
  }

  /** The verdict a request ends with, from its first or its second attempt. */
  predicate Delivers(behaviour: JudgeBehaviour, n: nat, request: JudgeRequest) {
    JudgedWithRepair(behaviour, n, request).reply.Judged?
  }

  /**
   * A delivered verdict fails to name the prompt of its request only if the first attempt delivered it under another
   * prompt. After a repair it names the request's prompt whatever the judge says, although a judge that names what it
   * was asked has just named a different one.
   */
  lemma RepairedVerdictNamesTheRequest(behaviour: JudgeBehaviour, n: nat, request: JudgeRequest)
    requires Delivers(behaviour, n, request)
    ensures JudgedWithRepair(behaviour, n, request).reply.verdict.renderedPrompt != request.prompt
       <==> behaviour(n, request).Judged? && behaviour(n, request).verdict.renderedPrompt != request.prompt
    ensures var second := behaviour(n + 1, RepairPrompt(request));
            IsSchemaFailure(behaviour(n, request)) && second.verdict.renderedPrompt == RepairPrompt(request).prompt ==>
              second.verdict.renderedPrompt != JudgedWithRepair(behaviour, n, request).reply.verdict.renderedPrompt
  {
    RepairChangesThePrompt(request);
  }

  // ---- The cache ----

  datatype JudgeKey = JudgeKey(judge: JudgeIdentity, prompt: JudgePrompt)

  type VerdictCache = map<JudgeKey, Verdict>

  predicate VerdictMatches(key: JudgeKey, verdict: Verdict) {
    verdict.judge == key.judge && verdict.renderedPrompt == key.prompt && !verdict.cacheHit
  }

  predicate VerdictsMatch(cache: VerdictCache) {
    forall key <- cache :: VerdictMatches(key, cache[key])
  }

  predicate VerdictsKept(before: VerdictCache, after: VerdictCache) {
    forall key <- before :: key in after && after[key] == before[key]
  }

  function FreeVerdict(verdict: Verdict): Verdict {
    verdict.(usage := NO_USAGE, requestId := None, cacheHit := true)
  }

  datatype JudgeService = JudgeService(reply: JudgeReply, calls: nat, spent: Usage, cache: VerdictCache)

  /** The cache refuses a verdict that is marked as a hit; its provenance it does not look at. */
  function ServeVerdict(own: JudgeIdentity, behaviour: JudgeBehaviour, n: nat, cache: VerdictCache,
                        arrivals: VerdictCache, request: JudgeRequest): JudgeService
  {
    var key := JudgeKey(own, request.prompt);
    var later := arrivals + cache;
    if key in cache then JudgeService(Judged(FreeVerdict(cache[key])), 0, NO_USAGE, later)
    else
      var r := JudgedWithRepair(behaviour, n, request);
      if !r.reply.Judged? then JudgeService(r.reply, r.calls, r.spent, later)
      else if r.reply.verdict.cacheHit then JudgeService(Raised, r.calls, r.spent, later)
      else JudgeService(r.reply, r.calls, r.spent, if key in later then later else later[key := r.reply.verdict])
  }

  class JudgeProvider {
    const identity: JudgeIdentity
    const behaviour: JudgeBehaviour
    var calls: nat
    var spent: Usage

    constructor (identity: JudgeIdentity, behaviour: JudgeBehaviour)
      ensures this.identity == identity && this.behaviour == behaviour && calls == 0 && spent == NO_USAGE
    {
      this.identity := identity;
      this.behaviour := behaviour;
      calls := 0;
      spent := NO_USAGE;
    }

    method Judge(request: JudgeRequest) returns (reply: JudgeReply)
      modifies this
      ensures reply == behaviour(old(calls), request)
      ensures calls == old(calls) + 1 && spent == Combine(old(spent), ReplyUsage(reply))
    {
      reply := behaviour(calls, request);
      calls := calls + 1;
      spent := Combine(spent, ReplyUsage(reply));
    }
  }

  class RepairingJudge {
    const judge: JudgeProvider

    constructor (judge: JudgeProvider)
      ensures this.judge == judge
    {
      this.judge := judge;
    }

    method Judge(request: JudgeRequest) returns (reply: JudgeReply)
      modifies judge
      ensures reply == JudgedWithRepair(judge.behaviour, old(judge.calls), request).reply
      ensures judge.calls == old(judge.calls) + JudgedWithRepair(judge.behaviour, old(judge.calls), request).calls
      ensures judge.spent
              == Combine(old(judge.spent), JudgedWithRepair(judge.behaviour, old(judge.calls), request).spent)
      ensures var first := judge.behaviour(old(judge.calls), request);
              if first.Refused? && first.failure.outcome == SchemaError then judge.calls == old(judge.calls) + 2
              else reply == first && judge.calls == old(judge.calls) + 1
    {
      reply := judge.Judge(request);
      if !reply.Refused? || reply.failure.outcome != SchemaError { return; }
      var firstUsage, prompt := reply.failure.usage, request.prompt;
      reply := judge.Judge(
        JudgeRequest(JudgePrompt(prompt.system, prompt.user + [RepairInstruction], prompt.version), request.traceId));
      match reply
      case Judged(verdict) =>
        reply := Judged(verdict.(renderedPrompt := request.prompt, usage := Combine(firstUsage, verdict.usage)));
      case Refused(failure) => reply := Refused(failure.(usage := Combine(firstUsage, failure.usage)));
      case Raised =>
    }
  }

  class CachingJudge {
    const judge: RepairingJudge
    const identity: JudgeIdentity
    var cache: VerdictCache

    constructor (judge: RepairingJudge)
      ensures this.judge == judge && identity == judge.judge.identity && cache == map[]
    {
      this.judge := judge;
      identity := judge.judge.identity;
      cache := map[];
    }

    method Judge(request: JudgeRequest, arrivals: VerdictCache) returns (reply: JudgeReply)
      modifies this`cache, judge.judge
      ensures var provider := judge.judge;
              var s := ServeVerdict(identity, provider.behaviour, old(provider.calls), old(cache), arrivals, request);
              && reply == s.reply && cache == s.cache && provider.calls == old(provider.calls) + s.calls
              && provider.spent == Combine(old(provider.spent), s.spent)
    {
      var key := JudgeKey(identity, request.prompt);
      if key in cache {
        reply := Judged(FreeVerdict(cache[key]));
        cache := arrivals + cache;
        return;
      }
      reply := judge.Judge(request);
      cache := arrivals + cache;
      if reply.Judged? {
        if reply.verdict.cacheHit { return Raised; }
        if key !in cache { cache := cache[key := reply.verdict]; }
      }
    }
  }

  // ---- One request, reply by reply ----

  /** The same request with the instruction at the end of its user prompt. */
  function Instructed(request: JudgeRequest): JudgeRequest {
    var p := request.prompt;
    JudgeRequest(JudgePrompt(p.system, p.user + [RepairInstruction], p.version), request.traceId)
  }

  predicate MarkedAsHit(reply: JudgeReply) {
    reply.Judged? && reply.verdict.cacheHit
  }

  /** A missed request whose first reply is not a schema failure makes one call and gets that very reply. */
  lemma OneReplyIsFinal(own: JudgeIdentity, behaviour: JudgeBehaviour, n: nat, cache: VerdictCache,
                        arrivals: VerdictCache, request: JudgeRequest)
    requires JudgeKey(own, request.prompt) !in cache
    requires !(behaviour(n, request).Refused? && behaviour(n, request).failure.outcome == SchemaError)
    ensures var first, s := behaviour(n, request), ServeVerdict(own, behaviour, n, cache, arrivals, request);
            s.calls == 1 && s.spent == ReplyUsage(first) && s.reply == if MarkedAsHit(first) then Raised else first
  {}

  /**
   * After a schema failure, and only then, the judge is asked once more, with the instruction added to the prompt. The
   * scores are those of the second verdict, which is made out to the original prompt and carries both usages.
   */
  lemma SchemaFailuresAreRepairedOnce(own: JudgeIdentity, behaviour: JudgeBehaviour, n: nat, cache: VerdictCache,
                                      arrivals: VerdictCache, request: JudgeRequest)
    requires JudgeKey(own, request.prompt) !in cache
    requires behaviour(n, request).Refused? && behaviour(n, request).failure.outcome == SchemaError
    ensures var first, second := behaviour(n, request).failure, behaviour(n + 1, Instructed(request));
            var s := ServeVerdict(own, behaviour, n, cache, arrivals, request);
            && s.calls == 2
            && match second
               case Raised => s.reply == Raised
               case Refused(f) => s.reply == Refused(Failure(f.outcome, f.message, Combine(first.usage, f.usage),
                                                             f.requestId))
               case Judged(v) =>
                 s.reply == if v.cacheHit then Raised
                            else Judged(Verdict(v.faithfulness, v.relevance, v.judge, request.prompt,
                                                Combine(first.usage, v.usage), v.requestId, false))
  {
    assert RepairPrompt(request) == Instructed(request);
  }

  /** A stored verdict comes back with its scores and its judge, marked as a hit, free and without an identity. */
  lemma StoredVerdictComesBack(own: JudgeIdentity, behaviour: JudgeBehaviour, n: nat, cache: VerdictCache,
                               arrivals: VerdictCache, request: JudgeRequest)
    requires JudgeKey(own, request.prompt) in cache
    ensures var v := cache[JudgeKey(own, request.prompt)];
            var s := ServeVerdict(own, behaviour, n, cache, arrivals, request);
            && s.calls == 0 && s.spent == NO_USAGE
            && s.reply == Judged(Verdict(v.faithfulness, v.relevance, v.judge, v.renderedPrompt,
                                         TokenUsage(0, 0, 0, 0, 0.0), None, true))
  {}

  // ---- What one request stores ----

  /** A request keeps what is stored, and what it adds besides arrivals is the very verdict it delivers. */
  lemma ServiceStores(own: JudgeIdentity, behaviour: JudgeBehaviour, n: nat, cache: VerdictCache,
                      arrivals: VerdictCache, request: JudgeRequest)
    ensures var s := ServeVerdict(own, behaviour, n, cache, arrivals, request);
            var key := JudgeKey(own, request.prompt);
            && VerdictsKept(cache, s.cache)
            && (!s.reply.Judged? ==> s.cache == arrivals + cache)
            && (s.reply.Judged? ==> key in s.cache)
            && (forall other <- s.cache :: other !in cache && other !in arrivals ==>
                  other == key && s.reply == Judged(s.cache[other]))
  {}

  /**
   * A request stores a verdict under a key it does not match: nobody has stored that key, the verdict is not marked as
   * a hit, and it names another judge, or it comes from the first attempt and names another prompt.
   */
  predicate StoresMismatch(own: JudgeIdentity, behaviour: JudgeBehaviour, n: nat, cache: VerdictCache,
                           arrivals: VerdictCache, request: JudgeRequest)
  {
    var key, r := JudgeKey(own, request.prompt), JudgedWithRepair(behaviour, n, request);
    && key !in cache && key !in arrivals && r.reply.Judged? && !r.reply.verdict.cacheHit
    && (r.reply.verdict.judge != own
        || (!IsSchemaFailure(behaviour(n, request)) && behaviour(n, request).verdict.renderedPrompt != request.prompt))
  }

  /** A cache whose verdicts match their keys stays one exactly if the request is not of that kind. */
  lemma CacheMatchesExactly(own: JudgeIdentity, behaviour: JudgeBehaviour, n: nat, cache: VerdictCache,
                            arrivals: VerdictCache, request: JudgeRequest)
    requires VerdictsMatch(cache) && VerdictsMatch(arrivals)
    ensures VerdictsMatch(ServeVerdict(own, behaviour, n, cache, arrivals, request).cache)
       <==> !StoresMismatch(own, behaviour, n, cache, arrivals, request)
  {
    var key, s := JudgeKey(own, request.prompt), ServeVerdict(own, behaviour, n, cache, arrivals, request);
    ServiceStores(own, behaviour, n, cache, arrivals, request);
    if key !in cache && key !in arrivals && s.reply.Judged? {
      assert s.cache[key] == s.reply.verdict;
      RepairedVerdictNamesTheRequest(behaviour, n, request);
    }
  }

  /** A judge that always answers as another one has its first verdict stored under a key it does not match. */
  lemma ForeignVerdictsAreStored(own: JudgeIdentity, other: JudgeIdentity, request: JudgeRequest)
    requires own != other
    ensures var behaviour := (n: nat, r: JudgeRequest) =>
                               Judged(Verdict(1.0, 1.0, other, r.prompt, NO_USAGE, None, false));
            && StoresMismatch(own, behaviour, 0, map[], map[], request)
            && !VerdictsMatch(ServeVerdict(own, behaviour, 0, map[], map[], request).cache)
  {
    var behaviour := (n: nat, r: JudgeRequest) =>
                       Judged(Verdict(1.0, 1.0, other, r.prompt, NO_USAGE, None, false));
    CacheMatchesExactly(own, behaviour, 0, map[], map[], request);
  }

  // ---- What one request reports ----

  /** What the repair leaves unreported: an exception on the second attempt drops the first one's usage. */
  function DroppedUsage(behaviour: JudgeBehaviour, n: nat, request: JudgeRequest): Usage {
    var first := behaviour(n, request);
    if IsSchemaFailure(first) && behaviour(n + 1, RepairPrompt(request)).Raised? then ReplyUsage(first) else NO_USAGE
  }

  lemma RestoredUsage(reply: JudgeReply, usage: Usage, prompt: JudgePrompt)
    ensures ReplyUsage(Restored(reply, usage, prompt)) == if reply.Raised? then NO_USAGE else usage
  {}

  lemma JudgeRepairAccounts(behaviour: JudgeBehaviour, n: nat, request: JudgeRequest)
    ensures JudgedWithRepair(behaviour, n, request).spent
         == Combine(ReplyUsage(JudgedWithRepair(behaviour, n, request).reply), DroppedUsage(behaviour, n, request))
  {
    var first, second := behaviour(n, request), behaviour(n + 1, RepairPrompt(request));
    CombineIsAMonoid(ReplyUsage(first), NO_USAGE, NO_USAGE);
    if IsSchemaFailure(first) {
      RestoredUsage(second, Combine(ReplyUsage(first), ReplyUsage(second)), request.prompt);
      CombineIsAMonoid(Combine(ReplyUsage(first), ReplyUsage(second)), NO_USAGE, NO_USAGE);
    }
  }

  /** Usage that no reply carries: dropped by the repair, or of a verdict that the cache refuses to store. */
  function Unreported(own: JudgeIdentity, behaviour: JudgeBehaviour, n: nat, cache: VerdictCache,
                      request: JudgeRequest): Usage
  {
    var r := JudgedWithRepair(behaviour, n, request);
    if JudgeKey(own, request.prompt) in cache then NO_USAGE
    else if r.reply.Judged? && r.reply.verdict.cacheHit then r.spent
    else DroppedUsage(behaviour, n, request)
  }

  /** A miss ends as its repair does, or raises over a verdict that it refuses. */
  lemma MissReply(own: JudgeIdentity, behaviour: JudgeBehaviour, n: nat, cache: VerdictCache, arrivals: VerdictCache,
                  request: JudgeRequest)
    requires JudgeKey(own, request.prompt) !in cache
    ensures var r, s := JudgedWithRepair(behaviour, n, request),
                        ServeVerdict(own, behaviour, n, cache, arrivals, request);
            s.reply == (if r.reply.Judged? && r.reply.verdict.cacheHit then Raised else r.reply) && s.spent == r.spent
  {}

  lemma MissAccounts(own: JudgeIdentity, behaviour: JudgeBehaviour, n: nat, cache: VerdictCache,
                     arrivals: VerdictCache, request: JudgeRequest)
    requires JudgeKey(own, request.prompt) !in cache
    ensures ServeVerdict(own, behaviour, n, cache, arrivals, request).spent
         == Combine(ReplyUsage(ServeVerdict(own, behaviour, n, cache, arrivals, request).reply),
                    Unreported(own, behaviour, n, cache, request))
  {
    MissReply(own, behaviour, n, cache, arrivals, request);
    JudgeRepairAccounts(behaviour, n, request);
    CombineIsAMonoid(JudgedWithRepair(behaviour, n, request).spent, NO_USAGE, NO_USAGE);
  }

  lemma HitAccounts(own: JudgeIdentity, behaviour: JudgeBehaviour, n: nat, cache: VerdictCache,
                    arrivals: VerdictCache, request: JudgeRequest)
    requires JudgeKey(own, request.prompt) in cache
    ensures ServeVerdict(own, behaviour, n, cache, arrivals, request).spent == NO_USAGE
    ensures ReplyUsage(ServeVerdict(own, behaviour, n, cache, arrivals, request).reply) == NO_USAGE
    ensures Unreported(own, behaviour, n, cache, request) == NO_USAGE
  {}

  /** What was spent on a request is what its reply reports and what goes unreported. */
  lemma JudgingAccounts(own: JudgeIdentity, behaviour: JudgeBehaviour, n: nat, cache: VerdictCache,
                        arrivals: VerdictCache, request: JudgeRequest)
    ensures ServeVerdict(own, behaviour, n, cache, arrivals, request).spent
         == Combine(ReplyUsage(ServeVerdict(own, behaviour, n, cache, arrivals, request).reply),
                    Unreported(own, behaviour, n, cache, request))
  {
    if JudgeKey(own, request.prompt) in cache {
      HitAccounts(own, behaviour, n, cache, arrivals, request);
      CombineIsAMonoid(NO_USAGE, NO_USAGE, NO_USAGE);
    } else {
      MissAccounts(own, behaviour, n, cache, arrivals, request);
    }
  }

  /**
   * The requests that lose usage: a miss that is billed and ends in a verdict already marked as a hit, or whose second
   * attempt ends in an unexpected exception after a billed schema failure.
   */
  predicate LosesUsage(own: JudgeIdentity, behaviour: JudgeBehaviour, n: nat, cache: VerdictCache,
                       request: JudgeRequest)
  {
    var first, r := behaviour(n, request), JudgedWithRepair(behaviour, n, request);
    && JudgeKey(own, request.prompt) !in cache
    && if r.reply.Judged? then r.reply.verdict.cacheHit && r.spent != NO_USAGE
       else IsSchemaFailure(first) && r.reply.Raised? && ReplyUsage(first) != NO_USAGE
  }

  lemma UnreportedExactly(own: JudgeIdentity, behaviour: JudgeBehaviour, n: nat, cache: VerdictCache,
                          request: JudgeRequest)
    ensures Unreported(own, behaviour, n, cache, request) != NO_USAGE
       <==> LosesUsage(own, behaviour, n, cache, request)
  {}

  /** One request's reply reports all it spent exactly when the request is not one of those. */
  lemma JudgingConservesExactly(own: JudgeIdentity, behaviour: JudgeBehaviour, n: nat, cache: VerdictCache,
                                arrivals: VerdictCache, request: JudgeRequest)
    ensures ServeVerdict(own, behaviour, n, cache, arrivals, request).spent
            == ReplyUsage(ServeVerdict(own, behaviour, n, cache, arrivals, request).reply)
       <==> !LosesUsage(own, behaviour, n, cache, request)
  {
    JudgingAccounts(own, behaviour, n, cache, arrivals, request);
    UnreportedExactly(own, behaviour, n, cache, request);
    CombineAddsSomething(ReplyUsage(ServeVerdict(own, behaviour, n, cache, arrivals, request).reply),
                         Unreported(own, behaviour, n, cache, request));
  }

  /** Such requests exist: a billed schema failure, and then an exception that is no judge failure. */
  lemma BrokenRepairLosesUsage(own: JudgeIdentity, request: JudgeRequest, n: nat)
    ensures var billed: Usage := TokenUsage(1, 0, 0, 0, 0.0);
            var behaviour := (m: nat, r: JudgeRequest) =>
                               if m == n then Refused(Failure(SchemaError, "", billed, None)) else Raised;
            LosesUsage(own, behaviour, n, map[], request)
  {}
}
