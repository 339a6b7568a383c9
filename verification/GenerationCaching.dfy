/** Generation through a cache, over a single repair attempt, over a provider that may answer anything. */
module GenerationCaching {
  import opened Prelude
  import opened GenerationContract
  import opened Pricing

  /** A piece of the user prompt: rendered text, or the fixed instruction that asks for a repair. */
  datatype Part = Text(text: string) | RepairInstruction

  /** The semantic prompt: all that the rendered prompt's hash covers. */
  datatype Prompt = Prompt(system: string, user: seq<Part>, version: string, schema: string)

  /** A prompt and the identity of this one call, which the hash leaves out. */
  datatype Request = Request(prompt: Prompt, traceId: string)

  datatype GenerationResult = GenerationResult(
    output: CitedAnswer, usage: Usage, provenance: Provenance, requestId: Option<string>, cacheHit: bool)

  datatype Failure = Failure(outcome: GenerationOutcome, message: string, usage: Usage, requestId: Option<string>)

  /** A result, an expected failure with its billable usage, or any other exception, which carries none. */
  datatype Reply = Generated(result: GenerationResult) | Failed(failure: Failure) | Broken

  function UsageOf(reply: Reply): Usage {
    match reply
    case Generated(result) => result.usage
    case Failed(failure) => failure.usage
    case Broken => NO_USAGE
  }

  predicate IsSchemaError(reply: Reply) {
    reply.Failed? && reply.failure.outcome.SchemaError?
  }

  /** How a provider answers its n-th call; since it may depend on n, it stands for any provider whatever. */
  type Behaviour = (nat, Request) -> Reply

  // ---- Repair ----

  function RepairRequest(request: Request): Request {
    request.(prompt := request.prompt.(user := request.prompt.user + [RepairInstruction]))
  }

  /** The reply to a request after which `calls` calls were made, and what the provider reported for all of them. */
  datatype Exchange = Exchange(reply: Reply, calls: nat, spent: Usage)

  function WithUsage(reply: Reply, usage: Usage): Reply {
    match reply
    case Generated(result) => Generated(result.(usage := usage))
    case Failed(failure) => Failed(failure.(usage := usage))
    case Broken => Broken
  }

  function Repaired(behaviour: Behaviour, n: nat, request: Request): Exchange {
    var first := behaviour(n, request);
    if !IsSchemaError(first) then Exchange(first, 1, UsageOf(first))
    else
      var second := behaviour(n + 1, RepairRequest(request));
      Exchange(WithUsage(second, Combine(UsageOf(first), UsageOf(second))), 2,
               Combine(UsageOf(first), UsageOf(second)))
  }

  /** What was spent but never reported: an exception that is not a generation failure drops the first attempt's. */
  function DroppedByRepair(behaviour: Behaviour, n: nat, request: Request): Usage {
    var first := behaviour(n, request);
    if IsSchemaError(first) && behaviour(n + 1, RepairRequest(request)).Broken? then UsageOf(first) else NO_USAGE
  }

  lemma UsageReplaced(reply: Reply, usage: Usage)
    ensures UsageOf(WithUsage(reply, usage)) == if reply.Broken? then NO_USAGE else usage
  {}

  /** Repair reports both attempts, unless the second one breaks. */
  lemma RepairAccounts(behaviour: Behaviour, n: nat, request: Request)
    ensures Repaired(behaviour, n, request).spent
         == Combine(UsageOf(Repaired(behaviour, n, request).reply), DroppedByRepair(behaviour, n, request))
  {
    var first := behaviour(n, request);
    var second := behaviour(n + 1, RepairRequest(request));
    CombineIsAMonoid(UsageOf(first), NO_USAGE, NO_USAGE);
    if IsSchemaError(first) {
      UsageReplaced(second, Combine(UsageOf(first), UsageOf(second)));
      CombineIsAMonoid(Combine(UsageOf(first), UsageOf(second)), NO_USAGE, NO_USAGE);
    }
  }

  // ---- The cache ----

  datatype CacheKey = CacheKey(provenance: Provenance, prompt: Prompt)

  type Cache = map<CacheKey, GenerationResult>

  /** Insert unless the key is there already. */
  function Put(cache: Cache, key: CacheKey, result: GenerationResult): Cache {
    if key in cache then cache else cache[key := result]
  }

  /** Entries that other processes insert, likewise without replacing any. */
  function Arrive(cache: Cache, arrivals: Cache): Cache {
    arrivals + cache
  }

  predicate MatchesKey(key: CacheKey, result: GenerationResult) {
    result.provenance == key.provenance && !result.cacheHit
  }

  predicate CacheInvariant(cache: Cache) {
    forall key <- cache :: MatchesKey(key, cache[key])
  }

  predicate Kept(before: Cache, after: Cache) {
    forall key <- before :: key in after && after[key] == before[key]
  }

  function FromCache(result: GenerationResult): GenerationResult {
    result.(usage := NO_USAGE, requestId := None, cacheHit := true)
  }

  predicate Accepted(own: Provenance, result: GenerationResult) {
    result.provenance == own && !result.cacheHit
  }

  /** What one request does: its reply, the provider's share, and the cache afterwards. */
  datatype Service = Service(reply: Reply, calls: nat, spent: Usage, cache: Cache)

  function Serve(own: Provenance, behaviour: Behaviour, n: nat, cache: Cache, arrivals: Cache,
                 request: Request): Service {
    var key := CacheKey(own, request.prompt);
    if key in cache then
      Service(if cache[key].provenance == own then Generated(FromCache(cache[key])) else Broken, 0, NO_USAGE,
              Arrive(cache, arrivals))
    else
      var r := Repaired(behaviour, n, request);
      var later := Arrive(cache, arrivals);
      if r.reply.Generated? then
        if Accepted(own, r.reply.result) then Service(r.reply, r.calls, r.spent, Put(later, key, r.reply.result))
        else Service(Broken, r.calls, r.spent, later)
      else Service(r.reply, r.calls, r.spent, later)
  }

  /** Usage that no reply carries: dropped by the repair, or of a result the cache layer rejects. */
  function Unreported(own: Provenance, behaviour: Behaviour, n: nat, cache: Cache, request: Request): Usage {
    if CacheKey(own, request.prompt) in cache then NO_USAGE
    else
      var r := Repaired(behaviour, n, request);
      if r.reply.Generated? && !Accepted(own, r.reply.result) then r.spent
      else DroppedByRepair(behaviour, n, request)
  }

  lemma MissAccounts(own: Provenance, behaviour: Behaviour, n: nat, cache: Cache, arrivals: Cache, request: Request)
    requires CacheKey(own, request.prompt) !in cache
    ensures var s := Serve(own, behaviour, n, cache, arrivals, request);
            s.spent == Combine(UsageOf(s.reply), Unreported(own, behaviour, n, cache, request))
  {
    var r := Repaired(behaviour, n, request);
    RepairAccounts(behaviour, n, request);
    CombineIsAMonoid(r.spent, NO_USAGE, NO_USAGE);
    if r.reply.Generated? && !Accepted(own, r.reply.result) {
      assert Serve(own, behaviour, n, cache, arrivals, request).reply == Broken;
    } else {
      assert Serve(own, behaviour, n, cache, arrivals, request).reply == r.reply;
    }
  }

  lemma HitAccounts(own: Provenance, behaviour: Behaviour, n: nat, cache: Cache, arrivals: Cache, request: Request)
    requires CacheKey(own, request.prompt) in cache
    ensures Serve(own, behaviour, n, cache, arrivals, request).spent == NO_USAGE
    ensures UsageOf(Serve(own, behaviour, n, cache, arrivals, request).reply) == NO_USAGE
    ensures Unreported(own, behaviour, n, cache, request) == NO_USAGE
  {}

  /** One request's spend is what its reply reports plus what went unreported. */
  lemma ServiceAccounts(own: Provenance, behaviour: Behaviour, n: nat, cache: Cache, arrivals: Cache, request: Request)
    ensures Serve(own, behaviour, n, cache, arrivals, request).spent
         == Combine(UsageOf(Serve(own, behaviour, n, cache, arrivals, request).reply),
                    Unreported(own, behaviour, n, cache, request))
  {
    if CacheKey(own, request.prompt) in cache {
      HitAccounts(own, behaviour, n, cache, arrivals, request);
      CombineIsAMonoid(NO_USAGE, NO_USAGE, NO_USAGE);
    } else {
      MissAccounts(own, behaviour, n, cache, arrivals, request);
    }
  }

  /**
   * The requests that lose usage: a miss whose second attempt ends in another exception after a billed schema error, or
   * whose billed result comes from another model or is already marked as a hit.
   */
  predicate Loses(own: Provenance, behaviour: Behaviour, n: nat, cache: Cache, request: Request) {
    var first := behaviour(n, request);
    var r := Repaired(behaviour, n, request);
    CacheKey(own, request.prompt) !in cache &&
    if r.reply.Generated? then !Accepted(own, r.reply.result) && r.spent != NO_USAGE
    else IsSchemaError(first) && r.reply.Broken? && UsageOf(first) != NO_USAGE
  }

  lemma UnreportedExactly(own: Provenance, behaviour: Behaviour, n: nat, cache: Cache, request: Request)
    ensures Unreported(own, behaviour, n, cache, request) != NO_USAGE <==> Loses(own, behaviour, n, cache, request)
  {}

  /** One request's reply reports all it spent exactly when the request is not one of those. */
  lemma ServiceConservesExactly(own: Provenance, behaviour: Behaviour, n: nat, cache: Cache, arrivals: Cache,
                                request: Request)
    ensures Serve(own, behaviour, n, cache, arrivals, request).spent
            == UsageOf(Serve(own, behaviour, n, cache, arrivals, request).reply)
       <==> !Loses(own, behaviour, n, cache, request)
  {
    ServiceAccounts(own, behaviour, n, cache, arrivals, request);
    UnreportedExactly(own, behaviour, n, cache, request);
    CombineAddsSomething(UsageOf(Serve(own, behaviour, n, cache, arrivals, request).reply),
                         Unreported(own, behaviour, n, cache, request));
  }

  /** Such a request exists: a provider that bills one token and answers under another model's name. */
  lemma ForeignResultsLoseUsage(own: Provenance, other: Provenance, output: CitedAnswer, request: Request)
    requires own != other
    ensures var billed: Usage := TokenUsage(1, 0, 0, 0, 0.0);
            var behaviour := (n: nat, r: Request) =>
                               Reply.Generated(GenerationResult(output, billed, other, None, false));
            Loses(own, behaviour, 0, map[], request)
  {}

  /** And so does a provider that bills a schema error and then breaks. */
  lemma BrokenRepairLosesUsage(own: Provenance, request: Request, n: nat)
    ensures var billed: Usage := TokenUsage(1, 0, 0, 0, 0.0);
            var behaviour := (m: nat, r: Request) =>
                               if m == n then Failed(Failure(SchemaError, "", billed, None)) else Broken;
            Loses(own, behaviour, n, map[], request)
  {}

  lemma ArrivalsKeep(cache: Cache, arrivals: Cache)
    ensures Kept(cache, Arrive(cache, arrivals))
    ensures CacheInvariant(cache) && CacheInvariant(arrivals) ==> CacheInvariant(Arrive(cache, arrivals))
  {}

  lemma PutKeeps(cache: Cache, key: CacheKey, result: GenerationResult)
    ensures Kept(cache, Put(cache, key, result)) && Put(cache, key, result).Keys == cache.Keys + {key}
    ensures CacheInvariant(cache) && MatchesKey(key, result) ==> CacheInvariant(Put(cache, key, result))
  {}

  /** What a request may leave in the cache: what arrived, and at most one accepted result of its own. */
  lemma ServiceStores(own: Provenance, behaviour: Behaviour, n: nat, cache: Cache, arrivals: Cache, request: Request)
    ensures var s := Serve(own, behaviour, n, cache, arrivals, request);
            var key := CacheKey(own, request.prompt);
            || s.cache == Arrive(cache, arrivals)
            || (key !in cache && s.reply.Generated? && MatchesKey(key, s.reply.result)
                && s.cache == Put(Arrive(cache, arrivals), key, s.reply.result))
  {}

  /** A failed request stores nothing, and after a successful one its key is stored. */
  lemma SuccessIsStored(own: Provenance, behaviour: Behaviour, n: nat, cache: Cache, arrivals: Cache,
                            request: Request)
    ensures var s := Serve(own, behaviour, n, cache, arrivals, request);
            && (!s.reply.Generated? ==> s.cache == Arrive(cache, arrivals))
            && (s.reply.Generated? ==> CacheKey(own, request.prompt) in s.cache)
  {}

  // ---- One request, reply by reply ----

  /** The same request with the instruction at the end of its user prompt. */
  function Instructed(request: Request): Request {
    var p := request.prompt;
    Request(Prompt(p.system, p.user + [RepairInstruction], p.version, p.schema), request.traceId)
  }

  predicate MayNotBeServed(own: Provenance, reply: Reply) {
    reply.Generated? && (reply.result.provenance != own || reply.result.cacheHit)
  }

  /**
   * A missed request whose first reply is not a schema error makes one call and gets that very reply, with its own
   * usage, unless it is a result of another model or one that is marked as a hit.
   */
  lemma OneReplyIsFinal(own: Provenance, behaviour: Behaviour, n: nat, cache: Cache, arrivals: Cache, request: Request)
    requires CacheKey(own, request.prompt) !in cache
    requires !(behaviour(n, request).Failed? && behaviour(n, request).failure.outcome == SchemaError)
    ensures var first, s := behaviour(n, request), Serve(own, behaviour, n, cache, arrivals, request);
            && s.calls == 1 && s.spent == UsageOf(first)
            && s.reply == if MayNotBeServed(own, first) then Broken else first
  {}

  /**
   * After a schema error, and only then, a second call is made, with the instruction added to the prompt; its reply is
   * final, whatever it is, and carries the usage of both.
   */
  lemma SchemaErrorsAreRepairedOnce(own: Provenance, behaviour: Behaviour, n: nat, cache: Cache, arrivals: Cache,
                                    request: Request)
    requires CacheKey(own, request.prompt) !in cache
    requires behaviour(n, request).Failed? && behaviour(n, request).failure.outcome == SchemaError
    ensures var first, second := behaviour(n, request).failure, behaviour(n + 1, Instructed(request));
            var s := Serve(own, behaviour, n, cache, arrivals, request);
            && s.calls == 2
            && match second
               case Broken => s.reply == Broken
               case Failed(f) => s.reply == Failed(Failure(f.outcome, f.message, Combine(first.usage, f.usage),
                                                           f.requestId))
               case Generated(r) =>
                 s.reply == if MayNotBeServed(own, second) then Broken
                            else Generated(GenerationResult(r.output, Combine(first.usage, r.usage), r.provenance,
                                                            r.requestId, r.cacheHit))
  {
    assert RepairRequest(request) == Instructed(request);
  }

  /** A stored result comes back with its output and its model, marked as a hit, free and without an identity. */
  lemma StoredResultComesBack(own: Provenance, behaviour: Behaviour, n: nat, cache: Cache, arrivals: Cache,
                              request: Request)
    requires CacheKey(own, request.prompt) in cache && cache[CacheKey(own, request.prompt)].provenance == own
    ensures var stored, s := cache[CacheKey(own, request.prompt)], Serve(own, behaviour, n, cache, arrivals, request);
            && s.calls == 0 && s.spent == NO_USAGE
            && s.reply == Generated(GenerationResult(stored.output, TokenUsage(0, 0, 0, 0, 0.0), own, None, true))
  {}

  lemma KeptTransitive(a: Cache, b: Cache, c: Cache)
    requires Kept(a, b) && Kept(b, c)
    ensures Kept(a, c)
  {}

  /** No entry is overwritten, and entries that match their keys are all that is added to such a cache. */
  lemma ServiceKeepsCache(own: Provenance, behaviour: Behaviour, n: nat, cache: Cache, arrivals: Cache,
                          request: Request)
    ensures Kept(cache, Serve(own, behaviour, n, cache, arrivals, request).cache)
    ensures CacheInvariant(cache) && CacheInvariant(arrivals) ==>
              CacheInvariant(Serve(own, behaviour, n, cache, arrivals, request).cache)
  {
    var s, later := Serve(own, behaviour, n, cache, arrivals, request), Arrive(cache, arrivals);
    ArrivalsKeep(cache, arrivals);
    ServiceStores(own, behaviour, n, cache, arrivals, request);
    if s.cache != later {
      PutKeeps(later, CacheKey(own, request.prompt), s.reply.result);
      KeptTransitive(cache, later, s.cache);
    }
  }

  // ---- The decorators ----

  class Provider {
    const provenance: Provenance
    const behaviour: Behaviour
    var calls: nat
    var spent: Usage

    constructor (provenance: Provenance, behaviour: Behaviour)
      ensures this.provenance == provenance && this.behaviour == behaviour && calls == 0 && spent == NO_USAGE
    {
      this.provenance := provenance;
      this.behaviour := behaviour;
      calls := 0;
      spent := NO_USAGE;
    }

    method Generate(request: Request) returns (reply: Reply)
      modifies this
      ensures reply == behaviour(old(calls), request)
      ensures calls == old(calls) + 1 && spent == Combine(old(spent), UsageOf(reply))
    {
      reply := behaviour(calls, request);
      calls := calls + 1;
      spent := Combine(spent, UsageOf(reply));
    }
  }

  class RepairingGenerator {
    const generator: Provider

    constructor (generator: Provider)
      ensures this.generator == generator
    {
      this.generator := generator;
    }

    method Generate(request: Request) returns (reply: Reply)
      modifies generator
      ensures var r := Repaired(generator.behaviour, old(generator.calls), request);
              && reply == r.reply && generator.calls == old(generator.calls) + r.calls
              && generator.spent == Combine(old(generator.spent), r.spent)
      ensures var first := generator.behaviour(old(generator.calls), request);
              if first.Failed? && first.failure.outcome == SchemaError then generator.calls == old(generator.calls) + 2
              else reply == first && generator.calls == old(generator.calls) + 1
    {
      reply := generator.Generate(request);
      if !reply.Failed? || reply.failure.outcome != SchemaError { return; }
      var firstUsage := reply.failure.usage;
      var prompt := request.prompt;
      reply := generator.Generate(
        Request(Prompt(prompt.system, prompt.user + [RepairInstruction], prompt.version, prompt.schema),
                request.traceId));
      match reply
      case Generated(result) => reply := Generated(result.(usage := Combine(firstUsage, result.usage)));
      case Failed(failure) => reply := Failed(failure.(usage := Combine(firstUsage, failure.usage)));
      case Broken =>
    }
  }

  class CachingGenerator {
    const generator: RepairingGenerator
    const provenance: Provenance
    var cache: Cache

    constructor (generator: RepairingGenerator)
      ensures this.generator == generator && provenance == generator.generator.provenance && cache == map[]
    {
      this.generator := generator;
      provenance := generator.generator.provenance;
      cache := map[];
    }

    /** `arrivals` are entries that other processes insert while this request is under way. */
    method Generate(request: Request, arrivals: Cache) returns (reply: Reply)
      modifies this`cache, generator.generator
      ensures var provider := generator.generator;
              var s := Serve(provenance, provider.behaviour, old(provider.calls), old(cache), arrivals, request);
              && reply == s.reply && cache == s.cache && provider.calls == old(provider.calls) + s.calls
              && provider.spent == Combine(old(provider.spent), s.spent)
    {
      var key := CacheKey(provenance, request.prompt);
      if key in cache {
        var cached := cache[key];
        cache := Arrive(cache, arrivals);
        if cached.provenance != provenance { return Broken; }
        return Generated(FromCache(cached));
      }
      reply := generator.Generate(request);
      cache := Arrive(cache, arrivals);
      if reply.Generated? {
        if reply.result.provenance != provenance || reply.result.cacheHit { return Broken; }
        if key !in cache { cache := cache[key := reply.result]; }
      }
    }
  }

  // ---- Costs stay priced ----

  /** Whatever the provider charges for, it charges by the table. */
  ghost predicate ChargesBy(table: PricingTable, name: ModelName, behaviour: Behaviour) {
    forall n, request :: PricedBy(table, name, UsageOf(behaviour(n, request)))
  }

  lemma RepairStaysPriced(table: PricingTable, name: ModelName, behaviour: Behaviour, n: nat, request: Request)
    requires name in table && ChargesBy(table, name, behaviour)
    ensures PricedBy(table, name, UsageOf(Repaired(behaviour, n, request).reply))
  {
    NothingIsFree(table, name);
    var first, second := behaviour(n, request), behaviour(n + 1, RepairRequest(request));
    assert PricedBy(table, name, UsageOf(first)) && PricedBy(table, name, UsageOf(second));
    PricingIsAdditive(table, name, UsageOf(first), UsageOf(second));
    UsageReplaced(second, Combine(UsageOf(first), UsageOf(second)));
  }

  lemma NothingIsFree(table: PricingTable, name: ModelName)
    requires name in table
    ensures PricedBy(table, name, NO_USAGE)
  {}

  /** If the provider prices its calls by the table, so is every reply that leaves the cache, hit or repaired or not. */
  lemma RepliesStayPriced(table: PricingTable, name: ModelName, own: Provenance, behaviour: Behaviour, n: nat,
                          cache: Cache, arrivals: Cache, request: Request)
    requires name in table && ChargesBy(table, name, behaviour)
    ensures PricedBy(table, name, UsageOf(Serve(own, behaviour, n, cache, arrivals, request).reply))
  {
    NothingIsFree(table, name);
    if CacheKey(own, request.prompt) in cache {
      HitAccounts(own, behaviour, n, cache, arrivals, request);
    } else {
      RepairStaysPriced(table, name, behaviour, n, request);
      MissReply(own, behaviour, n, cache, arrivals, request);
    }
  }

  lemma MissReply(own: Provenance, behaviour: Behaviour, n: nat, cache: Cache, arrivals: Cache, request: Request)
    requires CacheKey(own, request.prompt) !in cache
    ensures var reply := Serve(own, behaviour, n, cache, arrivals, request).reply;
            reply == Broken || reply == Repaired(behaviour, n, request).reply
  {}
}
