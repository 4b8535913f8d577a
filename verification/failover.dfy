/** One request on its way through the fleet: what is sent to each seat tried, and when the next seat is
    tried (internal/router/router.go, the loop of handleProxy; privacy.go, applyPrivacy). */
module Failover {
  import opened RequestDefaults
  import opened Registries
  import opened Candidates
  import opened Resolution

  const MAX_FAILOVER_ATTEMPTS := 2

  const MODEL := "model"
  const PROVIDER := "provider"
  const ZDR := "zdr"

  // ----- what goes on the wire ----------------------------------------------------------

  /** The tool proxy keys on the registry id; everything else on the name the engine serves. */
  function SentAs(t: Target, forceDirect: bool): string {
    if ViaToolProxy(t, forceDirect) then t.id else BackendName(t.model.hfRepo)
  }

  /** The body defaults of this seat, under the alias the caller used. */
  function Defaults(t: Target): Json {
    if t.alias == "" || t.alias !in t.model.defaults.overrides then Obj(t.model.defaults.requestDefaults)
    else Fill(AliasLevel(t.model.defaults.overrides[t.alias]), Obj(t.model.defaults.requestDefaults))
  }

  /** The caller's body with this seat's defaults filled in and its name put on. */
  function Filled(body: map<string, Json>, t: Target, forceDirect: bool): map<string, Json> {
    FillMap(body, Defaults(t))[MODEL := Str(SentAs(t, forceDirect))]
  }

  function FillMap(body: map<string, Json>, defaults: Json): map<string, Json> {
    var out := Fill(Obj(body), defaults);
    if out.Obj? then out.fields else body
  }

  predicate HasObject(body: map<string, Json>, key: string) {
    key in body && body[key].Obj?
  }

  predicate CanCarry(body: map<string, Json>) {
    PROVIDER !in body || body[PROVIDER].Null? || body[PROVIDER].Obj?
  }

  /** The body with the zero-retention directive, which overrules what it said itself. */
  function Directed(body: map<string, Json>): map<string, Json> {
    body[PROVIDER := Obj((if HasObject(body, PROVIDER) then body[PROVIDER].fields else map[])[ZDR := Bool(true)])]
  }

  /** The upstream is told to keep nothing. */
  predicate SaysZdr(body: map<string, Json>) {
    HasObject(body, PROVIDER) && ZDR in body[PROVIDER].fields && body[PROVIDER].fields[ZDR] == Bool(true)
  }

  /** The merge hands the caller's own provider object on unless the defaults have one to merge into it. */
  predicate Shares(body: map<string, Json>, t: Target) {
    HasObject(body, PROVIDER) && !(Defaults(t).Obj? && HasObject(Defaults(t).fields, PROVIDER))
  }

  method SetZdrDirective(body: map<string, Json>) returns (out: map<string, Json>, ok: bool)
    ensures ok <==> CanCarry(body)
    ensures out == if ok then Directed(body) else body
    ensures ok ==> SaysZdr(out)
    ensures ok ==> out.Keys == body.Keys + {PROVIDER} && forall k | k in body && k != PROVIDER :: out[k] == body[k]
    ensures ok ==> var own := if HasObject(body, PROVIDER) then body[PROVIDER].fields else map[];
                   && out[PROVIDER].fields.Keys == own.Keys + {ZDR}
                   && forall k | k in own && k != ZDR :: out[PROVIDER].fields[k] == own[k]
  {
    out, ok := body, true;
    if PROVIDER !in body || body[PROVIDER].Null? {
      out := body[PROVIDER := Obj(map[ZDR := Bool(true)])];
    } else if body[PROVIDER].Obj? {
      out := body[PROVIDER := Obj(body[PROVIDER].fields[ZDR := Bool(true)])];
    } else {
      ok := false;
    }
  }

  datatype Refusal = Vanished | BelowTier | ProviderNotObject

  /** What stops a dispatch that is held to a tier. */
  function Stops(body: map<string, Json>, t: Target, tier: Tier, gate: Catalog, forceDirect: bool): Option<Refusal> {
    var m := Lookup(gate, t.id);
    if tier.TierNone? then None
    else if m.None? then Some(Vanished)
    else if !Passes(m.value, tier) then Some(BelowTier)
    else if !IsLocal(m.value) && !CanCarry(Filled(body, t, forceDirect)) then Some(ProviderNotObject)
    else None
  }

  predicate NeedsDirective(t: Target, tier: Tier, gate: Catalog) {
    !tier.TierNone? && Lookup(gate, t.id).Some? && !IsLocal(Lookup(gate, t.id).value)
  }

  /** What this seat is sent. */
  function Wire(body: map<string, Json>, t: Target, tier: Tier, gate: Catalog, forceDirect: bool): map<string, Json> {
    if NeedsDirective(t, tier, gate) then Directed(Filled(body, t, forceDirect)) else Filled(body, t, forceDirect)
  }

  /** What that leaves of the caller's body: the directive is written into a shared provider object. */
  function Leaves(body: map<string, Json>, t: Target, tier: Tier, gate: Catalog): map<string, Json> {
    if NeedsDirective(t, tier, gate) && Shares(body, t) then Directed(body) else body
  }

  lemma DefaultsAreObject(t: Target)
    ensures Defaults(t).Obj?
  {
  }

  method PrepareBody(body: map<string, Json>, t: Target, tier: Tier, gate: Catalog, forceDirect: bool)
    returns (send: map<string, Json>, left: map<string, Json>, refusal: Option<Refusal>)
    ensures refusal == Stops(body, t, tier, gate, forceDirect)
    ensures refusal.None? ==> send == Wire(body, t, tier, gate, forceDirect) && left == Leaves(body, t, tier, gate)
  {
    hide Fill, AliasLevel, Passes;
    left, refusal := body, None;
    var defaults := RequestDefaultsFor(t.model.defaults, t.alias);
    assert Obj(defaults) == Defaults(t);
    send := ApplyRequestDefaults(body, defaults);
    send := send[MODEL := Str(SentAs(t, forceDirect))];
    assert send == Filled(body, t, forceDirect);
    if tier.TierNone? {
      return;
    }
    var m := Lookup(gate, t.id);
    if m.None? {
      refusal := Some(Vanished);
      return;
    }
    if !Passes(m.value, tier) {
      refusal := Some(BelowTier);
      return;
    }
    if IsLocal(m.value) {
      return;
    }
    var directed, ok := SetZdrDirective(send);
    if !ok {
      refusal := Some(ProviderNotObject);
      return;
    }
    send := directed;
    if HasObject(body, PROVIDER) && !HasObject(defaults, PROVIDER) {
      left := Directed(body);
    }
  }

  // ----- one attempt --------------------------------------------------------------------

  /** What an upstream does with a request: it breaks off, with or without bytes on their way to the
      client already; or it answers in full, envelope saying that a 2xx body is really an error; or its
      address does not parse, which the router answers itself. */
  datatype Upstream = Broke(wrote: bool) | Answers(status: int, envelope: bool) | BadAddress

  predicate RetryableStatus(status: int) {
    status >= 500 || status == 429
  }

  predicate Retryable(u: Upstream) {
    u.Answers? && (RetryableStatus(u.status) || (u.status < 300 && u.envelope))
  }

  /** With suppression a retryable answer comes back as an error with nothing written; without it every
      answer passes through. */
  predicate Fails(u: Upstream, suppress: bool) {
    u.Broke? || (suppress && Retryable(u))
  }

  predicate Writes(u: Upstream, suppress: bool) {
    if Fails(u, suppress) then u.Broke? && u.wrote else true
  }

  /** What the request meets at one attempt: the entries at the gate, the fleet when it looks ahead for
      another seat, the upstream, and the fleet once that is over. */
  datatype Moment = Moment(gate: Catalog, ahead: Fleet, upstream: Upstream, after: Fleet)

  /** One request sent, and what the tracker was told of it. */
  datatype Dispatch = Dispatch(target: Target, body: map<string, Json>, suppressed: bool, reportedFailure: bool)

  datatype Final = Forwarded | Refused(why: Refusal) | BadGateway | CutOff

  predicate Walks(t: Target) {
    t.role != "" || t.chain != ""
  }

  function Next(f: Fleet, roles: map<string, Role>, t: Target): Option<Target> {
    NextOf(f, RoleCapabilities(roles, t.role), t)
  }

  predicate Suppresses(roles: map<string, Role>, t: Target, k: nat, m: Moment) {
    Walks(t) && k < MAX_FAILOVER_ATTEMPTS && Next(m.ahead, roles, t).Some?
  }

  /** The request goes on to another seat: this one failed, nothing has reached the client, attempts are
      left, and the fleet as it is by now still has a seat for it. */
  predicate MovesOn(roles: map<string, Role>, t: Target, k: nat, m: Moment) {
    && Walks(t) && k < MAX_FAILOVER_ATTEMPTS && Next(m.after, roles, t).Some?
    && var suppress := Suppresses(roles, t, k, m);
       Fails(m.upstream, suppress) && !Writes(m.upstream, suppress)
  }

  /** The tracker hears of a failure when the upstream failed, and when a fleet seat's 503 passed through. */
  predicate ReportsFailure(t: Target, m: Moment, suppress: bool) {
    || Fails(m.upstream, suppress)
    || (m.upstream.Answers? && m.upstream.status == 503 && Lookup(m.after.catalog, t.id).Some? && IsLocal(Lookup(m.after.catalog, t.id).value))
  }

  /** How a request ends that does not move on. */
  function Ending(u: Upstream, suppress: bool): Final {
    if !Fails(u, suppress) then Forwarded
    else if Writes(u, suppress) then CutOff
    else BadGateway
  }

  // ----- the whole request --------------------------------------------------------------

  /** The tier a request is held to on every attempt: what the walk was held to, or else the caller's. */
  function HeldTo(t: Target, caller: Tier): Tier {
    if t.tier.TierNone? then caller else t.tier
  }

  datatype Outcome = Outcome(log: seq<Dispatch>, final: Final)

  /** The dispatches from attempt k on, and the end. */
  function Run(roles: map<string, Role>, t: Target, tier: Tier, body: map<string, Json>, forceDirect: bool, moments: seq<Moment>, k: nat): Outcome
    requires k <= MAX_FAILOVER_ATTEMPTS < |moments|
    decreases MAX_FAILOVER_ATTEMPTS - k
  {
    var m := moments[k];
    var stop := Stops(body, t, tier, m.gate, forceDirect);
    if stop.Some? then Outcome([], Refused(stop.value))
    else
      var suppress := Suppresses(roles, t, k, m);
      var d := Dispatch(t, Wire(body, t, tier, m.gate, forceDirect), suppress, ReportsFailure(t, m, suppress));
      if MovesOn(roles, t, k, m) then
        var rest := Run(roles, Next(m.after, roles, t).value, tier, Leaves(body, t, tier, m.gate), forceDirect, moments, k + 1);
        Outcome([d] + rest.log, rest.final)
      else Outcome([d], Ending(m.upstream, suppress))
  }

  /** The dispatch of attempt k, if the gate lets it through. */
  function DispatchOf(roles: map<string, Role>, t: Target, tier: Tier, body: map<string, Json>, forceDirect: bool, m: Moment, k: nat): Dispatch {
    var suppress := Suppresses(roles, t, k, m);
    Dispatch(t, Wire(body, t, tier, m.gate, forceDirect), suppress, ReportsFailure(t, m, suppress))
  }

  lemma RunUnfolds(roles: map<string, Role>, t: Target, tier: Tier, body: map<string, Json>, forceDirect: bool, moments: seq<Moment>, k: nat)
    requires k <= MAX_FAILOVER_ATTEMPTS < |moments|
    ensures var (m, run) := (moments[k], Run(roles, t, tier, body, forceDirect, moments, k));
            var (stop, d) := (Stops(body, t, tier, m.gate, forceDirect), DispatchOf(roles, t, tier, body, forceDirect, m, k));
            && (stop.Some? ==> run == Outcome([], Refused(stop.value)))
            && (stop.None? && !MovesOn(roles, t, k, m) ==> run == Outcome([d], Ending(m.upstream, d.suppressed)))
            && (stop.None? && MovesOn(roles, t, k, m) ==>
                  && k < MAX_FAILOVER_ATTEMPTS && Next(m.after, roles, t).Some?
                  && var rest := Run(roles, Next(m.after, roles, t).value, tier, Leaves(body, t, tier, m.gate), forceDirect, moments, k + 1);
                     run == Outcome([d] + rest.log, rest.final))
  {
    hide Stops, Wire, Leaves, ReportsFailure, NextOf, Ending, Suppresses;
  }

  /** The gate knows the seat, and it passes the tier; without a tier there is nothing to ask. */
  predicate Allowed(gate: Catalog, id: string, tier: Tier) {
    tier.TierNone? || (Lookup(gate, id).Some? && Passes(Lookup(gate, id).value, tier))
  }

  lemma LooserPasses(m: ModelDef, tight: Tier, loose: Tier)
    requires Passes(m, tight) && Strictness(loose) <= Strictness(tight)
    ensures Passes(m, loose)
  {
  }

  lemma {:induction false} RunIsAllowed(roles: map<string, Role>, t: Target, tier: Tier, body: map<string, Json>, forceDirect: bool,
                                        moments: seq<Moment>, k: nat)
    requires k <= MAX_FAILOVER_ATTEMPTS < |moments|
    ensures var log := Run(roles, t, tier, body, forceDirect, moments, k).log;
            k + |log| <= 1 + MAX_FAILOVER_ATTEMPTS && forall n: nat | n < |log| :: Allowed(moments[k + n].gate, log[n].target.id, tier)
    decreases MAX_FAILOVER_ATTEMPTS - k
  {
    hide Run, Stops, Wire, Leaves, ReportsFailure, NextOf, Suppresses, MovesOn, Ending, Next, Passes;
    RunUnfolds(roles, t, tier, body, forceDirect, moments, k);
    var m := moments[k];
    if Stops(body, t, tier, m.gate, forceDirect).None? {
      StopsChecksTier(body, t, tier, m.gate, forceDirect);
      if MovesOn(roles, t, k, m) {
        RunIsAllowed(roles, Next(m.after, roles, t).value, tier, Leaves(body, t, tier, m.gate), forceDirect, moments, k + 1);
      }
    }
  }

  /** Every dispatch is one the caller's own tier allows, be the seat named or walked to. */
  lemma AllAllowed(roles: map<string, Role>, t: Target, caller: Tier, body: map<string, Json>, forceDirect: bool, moments: seq<Moment>)
    requires MAX_FAILOVER_ATTEMPTS < |moments|
    ensures var log := Run(roles, t, HeldTo(t, caller), body, forceDirect, moments, 0).log;
            && |log| <= 1 + MAX_FAILOVER_ATTEMPTS
            && (t.tier.TierNone? || Strictness(t.tier) >= Strictness(caller) ==>
                  forall n: nat | n < |log| :: Allowed(moments[n].gate, log[n].target.id, caller))
  {
    hide Run, Passes;
    RunIsAllowed(roles, t, HeldTo(t, caller), body, forceDirect, moments, 0);
    var log := Run(roles, t, HeldTo(t, caller), body, forceDirect, moments, 0).log;
    if t.tier.TierNone? || Strictness(t.tier) >= Strictness(caller) {
      forall n: nat | n < |log|
        ensures Allowed(moments[n].gate, log[n].target.id, caller)
      {
        assert Allowed(moments[0 + n].gate, log[n].target.id, HeldTo(t, caller));
        if !caller.TierNone? {
          LooserPasses(Lookup(moments[n].gate, log[n].target.id).value, HeldTo(t, caller), caller);
        }
      }
    }
  }

  /** A model named directly that is below the caller's tier is refused, and nothing is sent. */
  lemma NamedBelowTierIsRefused(roles: map<string, Role>, t: Target, caller: Tier, body: map<string, Json>, forceDirect: bool, moments: seq<Moment>)
    requires MAX_FAILOVER_ATTEMPTS < |moments|
    ensures t.tier.TierNone? && Lookup(moments[0].gate, t.id).Some? && !Passes(Lookup(moments[0].gate, t.id).value, caller) ==>
              Run(roles, t, HeldTo(t, caller), body, forceDirect, moments, 0) == Outcome([], Refused(BelowTier))
  {
    hide Filled, CanCarry, Wire, Leaves, ReportsFailure, NextOf;
    RunUnfolds(roles, t, HeldTo(t, caller), body, forceDirect, moments, 0);
    hide Run;
  }

  /** Every dispatch is one the caller's own tier allows, unless the walk was held to a looser one, which no
      walk is; and a model named directly that is below the caller's tier is refused with nothing sent. */
  ghost predicate CallerIsKept(first: Target, caller: Tier, moments: seq<Moment>, out: Outcome) {
    && |out.log| <= 1 + MAX_FAILOVER_ATTEMPTS < 1 + |moments|
    && (first.tier.TierNone? || Strictness(first.tier) >= Strictness(caller) ==>
          forall n: nat | n < |out.log| :: Allowed(moments[n].gate, out.log[n].target.id, caller))
    && (first.tier.TierNone? && Lookup(moments[0].gate, first.id).Some? && !Passes(Lookup(moments[0].gate, first.id).value, caller) ==>
          out == Outcome([], Refused(BelowTier)))
  }

  lemma CallerKept(roles: map<string, Role>, first: Target, caller: Tier, body: map<string, Json>, forceDirect: bool, moments: seq<Moment>)
    requires MAX_FAILOVER_ATTEMPTS < |moments|
    ensures CallerIsKept(first, caller, moments, Run(roles, first, HeldTo(first, caller), body, forceDirect, moments, 0))
  {
    hide Run, HeldTo, Passes, Allowed;
    AllAllowed(roles, first, caller, body, forceDirect, moments);
    NamedBelowTierIsRefused(roles, first, caller, body, forceDirect, moments);
  }

  /** The loop: one attempt after the other until one is forwarded, refused or not followed up. */
  method HandleAttempts(roles: map<string, Role>, first: Target, caller: Tier, body: map<string, Json>, forceDirect: bool, moments: seq<Moment>)
    returns (out: Outcome)
    requires |moments| > MAX_FAILOVER_ATTEMPTS
    ensures out == Run(roles, first, HeldTo(first, caller), body, forceDirect, moments, 0)
    ensures CallerIsKept(first, caller, moments, out)
  {
    hide Run, Stops, Wire, Leaves, ReportsFailure, NextOf, Suppresses, MovesOn, Ending, Next, DispatchOf, CallerIsKept;
    CallerKept(roles, first, caller, body, forceDirect, moments);
    var tier := first.tier;
    if tier.TierNone? {
      tier := caller;
    }
    var t, current := first, body;
    var log: seq<Dispatch> := [];
    var attempt := 0;
    while true
      invariant attempt <= MAX_FAILOVER_ATTEMPTS
      invariant var (whole, rest) := (Run(roles, first, tier, body, forceDirect, moments, 0), Run(roles, t, tier, current, forceDirect, moments, attempt));
                whole == Outcome(log + rest.log, rest.final)
      decreases MAX_FAILOVER_ATTEMPTS - attempt
    {
      var m := moments[attempt];
      RunUnfolds(roles, t, tier, current, forceDirect, moments, attempt);
      var refusal, d, left, next := Attempt(roles, t, tier, current, forceDirect, m, attempt);
      if refusal.Some? {
        return Outcome(log, Refused(refusal.value));
      }
      if next.None? {
        return Outcome(log + [d], Ending(m.upstream, d.suppressed));
      }
      ghost var rest := Run(roles, next.value, tier, left, forceDirect, moments, attempt + 1);
      assert log + ([d] + rest.log) == (log + [d]) + rest.log;
      log := log + [d];
      t, current := next.value, left;
      attempt := attempt + 1;
    }
  }

  method Attempt(roles: map<string, Role>, t: Target, tier: Tier, body: map<string, Json>, forceDirect: bool, m: Moment, k: nat)
    returns (refusal: Option<Refusal>, d: Dispatch, left: map<string, Json>, next: Option<Target>)
    ensures refusal == Stops(body, t, tier, m.gate, forceDirect)
    ensures refusal.None? ==>
              && d == DispatchOf(roles, t, tier, body, forceDirect, m, k) && left == Leaves(body, t, tier, m.gate)
              && (next.Some? <==> MovesOn(roles, t, k, m)) && (next.Some? ==> next == Next(m.after, roles, t))
  {
    hide Stops, Wire, Leaves, NextOf, Suppresses, MovesOn, ReportsFailure;
    var send;
    send, left, refusal := PrepareBody(body, t, tier, m.gate, forceDirect);
    next := None;
    d := Dispatch(t, send, false, false);
    if refusal.None? {
      var suppress;
      suppress, next := TryUpstream(roles, t, k, m);
      d := Dispatch(t, send, suppress, ReportsFailure(t, m, suppress));
    }
  }

  /** Sends the request, suppressing a retryable answer while another seat could take it, and picks the
      seat to go on to if there is one. */
  method TryUpstream(roles: map<string, Role>, t: Target, attempt: nat, m: Moment) returns (suppress: bool, next: Option<Target>)
    ensures suppress == Suppresses(roles, t, attempt, m)
    ensures next.Some? <==> MovesOn(roles, t, attempt, m)
    ensures next.Some? ==> next == Next(m.after, roles, t)
  {
    hide NextOf;
    suppress, next := false, None;
    if Walks(t) && attempt < MAX_FAILOVER_ATTEMPTS {
      var ahead := NextRoleCandidate(m.ahead, roles, t);
      suppress := ahead.Some?;
    }
    if !Fails(m.upstream, suppress) {
      return;
    }
    if Walks(t) && attempt < MAX_FAILOVER_ATTEMPTS && !Writes(m.upstream, suppress) {
      next := NextRoleCandidate(m.after, roles, t);
    }
  }

  // ----- what every run keeps -----------------------------------------------------------

  /** Where a target stands in the order its walk goes through. */
  function Position(order: seq<Candidate>, t: Target): int {
    |order| - 1 - |t.remaining|
  }

  ghost predicate StandsIn(order: seq<Candidate>, t: Target) {
    var p := Position(order, t);
    p >= 0 && order[p].id == t.id && t.remaining == order[p + 1..]
  }

  /** Dispatch n went to a seat of the order that passes the tier by what the gate knew of it. */
  ghost predicate DispatchOk(order: seq<Candidate>, tier: Tier, moments: seq<Moment>, k: nat, log: seq<Dispatch>, n: nat)
    requires n < |log| && k + n < |moments|
  {
    var m := Lookup(moments[k + n].gate, log[n].target.id);
    StandsIn(order, log[n].target) && (tier.TierNone? || (m.Some? && Passes(m.value, tier)))
  }

  /** Dispatch n came to nothing without a byte reaching the client, and the one after it went to a seat
      further down the order. */
  ghost predicate LeftBehind(order: seq<Candidate>, moments: seq<Moment>, k: nat, log: seq<Dispatch>, n: nat)
    requires n + 1 < |log| && k + n < |moments|
  {
    && Fails(moments[k + n].upstream, log[n].suppressed) && !Writes(moments[k + n].upstream, log[n].suppressed)
    && Position(order, log[n].target) < Position(order, log[n + 1].target)
    && log[n].reportedFailure
  }

  ghost predicate SafeLog(order: seq<Candidate>, tier: Tier, moments: seq<Moment>, k: nat, log: seq<Dispatch>) {
    && k + |log| <= 1 + MAX_FAILOVER_ATTEMPTS < 1 + |moments|
    && (forall n: nat | n < |log| :: DispatchOk(order, tier, moments, k, log, n))
    && (forall n: nat | n + 1 < |log| :: LeftBehind(order, moments, k, log, n))
  }

  lemma StopsChecksTier(body: map<string, Json>, t: Target, tier: Tier, gate: Catalog, forceDirect: bool)
    requires Stops(body, t, tier, gate, forceDirect).None?
    ensures tier.TierNone? || (Lookup(gate, t.id).Some? && Passes(Lookup(gate, t.id).value, tier))
  {
  }

  lemma NextStands(f: Fleet, roles: map<string, Role>, t: Target, order: seq<Candidate>)
    requires StandsIn(order, t) && Next(f, roles, t).Some?
    ensures StandsIn(order, Next(f, roles, t).value) && Position(order, t) < Position(order, Next(f, roles, t).value)
  {
    NextIsFirst(f, RoleCapabilities(roles, t.role), t);
    hide NextOf, Admitted;
  }

  /** Every run dispatches at most three times, each time to a seat that passes the tier, at strictly
      increasing positions of the order, and goes on only while nothing has been written. */
  lemma {:induction false} RunIsSafe(roles: map<string, Role>, t: Target, tier: Tier, body: map<string, Json>, forceDirect: bool,
                                     moments: seq<Moment>, k: nat, order: seq<Candidate>)
    requires k <= MAX_FAILOVER_ATTEMPTS < |moments| && StandsIn(order, t)
    ensures SafeLog(order, tier, moments, k, Run(roles, t, tier, body, forceDirect, moments, k).log)
    ensures var log := Run(roles, t, tier, body, forceDirect, moments, k).log; log != [] ==> log[0].target == t
    decreases MAX_FAILOVER_ATTEMPTS - k
  {
    hide Run, Stops, Leaves, Wire, NextOf, StandsIn, Passes, MovesOn, SafeLog, Next, ReportsFailure, Suppresses, Ending;
    RunUnfolds(roles, t, tier, body, forceDirect, moments, k);
    var m := moments[k];
    var d := DispatchOf(roles, t, tier, body, forceDirect, m, k);
    if Stops(body, t, tier, m.gate, forceDirect).None? {
      StopsChecksTier(body, t, tier, m.gate, forceDirect);
      assert DispatchOk(order, tier, moments, k, [d], 0);
      if MovesOn(roles, t, k, m) {
        var next := Next(m.after, roles, t).value;
        NextStands(m.after, roles, t, order);
        RunIsSafe(roles, next, tier, Leaves(body, t, tier, m.gate), forceDirect, moments, k + 1, order);
        MovedOnFails(roles, t, tier, body, forceDirect, m, k);
        SafeCons(order, tier, moments, k, d, Run(roles, next, tier, Leaves(body, t, tier, m.gate), forceDirect, moments, k + 1).log, next);
      } else {
        SafeOne(order, tier, moments, k, d);
      }
    } else {
      SafeNone(order, tier, moments, k);
    }
  }

  lemma SafeNone(order: seq<Candidate>, tier: Tier, moments: seq<Moment>, k: nat)
    requires k <= MAX_FAILOVER_ATTEMPTS < |moments|
    ensures SafeLog(order, tier, moments, k, [])
  {
  }

  lemma SafeOne(order: seq<Candidate>, tier: Tier, moments: seq<Moment>, k: nat, d: Dispatch)
    requires k <= MAX_FAILOVER_ATTEMPTS < |moments| && DispatchOk(order, tier, moments, k, [d], 0)
    ensures SafeLog(order, tier, moments, k, [d])
  {
    hide StandsIn, Passes;
  }

  lemma MovedOnFails(roles: map<string, Role>, t: Target, tier: Tier, body: map<string, Json>, forceDirect: bool, m: Moment, k: nat)
    requires MovesOn(roles, t, k, m)
    ensures var d := DispatchOf(roles, t, tier, body, forceDirect, m, k);
            Fails(m.upstream, d.suppressed) && !Writes(m.upstream, d.suppressed) && d.reportedFailure
  {
    hide Wire, NextOf;
  }

  lemma SafeCons(order: seq<Candidate>, tier: Tier, moments: seq<Moment>, k: nat, d: Dispatch, rest: seq<Dispatch>, next: Target)
    requires k < MAX_FAILOVER_ATTEMPTS < |moments| && SafeLog(order, tier, moments, k + 1, rest)
    requires DispatchOk(order, tier, moments, k, [d], 0)
    requires rest != [] ==> rest[0].target == next
    requires Fails(moments[k].upstream, d.suppressed) && !Writes(moments[k].upstream, d.suppressed) && d.reportedFailure
    requires Position(order, d.target) < Position(order, next)
    ensures SafeLog(order, tier, moments, k, [d] + rest)
  {
    hide StandsIn, Passes;
    var log := [d] + rest;
    forall n: nat | n < |log|
      ensures DispatchOk(order, tier, moments, k, log, n)
    {
      if n > 0 {
        assert DispatchOk(order, tier, moments, k + 1, rest, n - 1);
      }
    }
    forall n: nat | n + 1 < |log|
      ensures LeftBehind(order, moments, k, log, n)
    {
      if n > 0 {
        assert LeftBehind(order, moments, k + 1, rest, n - 1);
      }
    }
  }

  /** A model named directly is tried once and never replaced by another. */
  lemma NamedModelStaysPut(roles: map<string, Role>, t: Target, tier: Tier, body: map<string, Json>, forceDirect: bool, moments: seq<Moment>)
    requires MAX_FAILOVER_ATTEMPTS < |moments| && !Walks(t)
    ensures var run := Run(roles, t, tier, body, forceDirect, moments, 0);
            |run.log| <= 1 && (run.log != [] ==> run.log[0].target == t && !run.log[0].suppressed)
  {
    RunUnfolds(roles, t, tier, body, forceDirect, moments, 0);
    hide Run, Stops, Wire, Leaves, ReportsFailure, NextOf;
  }

  // ----- what the gate can still refuse -------------------------------------------------

  /** Where each id is placed: on fleet hardware, and at an endpoint that can be held to zero retention. */
  datatype Placement = Placement(fleet: iset<string>, zdr: iset<string>)

  ghost predicate Placed(cat: Catalog, place: Placement) {
    forall id | Lookup(cat, id).Some? :: PlacedAs(Lookup(cat, id).value, id, place)
  }

  ghost predicate PlacedAs(m: ModelDef, id: string, place: Placement) {
    (IsLocal(m) <==> id in place.fleet) && (ZdrEnforceable(m) <==> id in place.zdr)
  }

  /** Nothing changes its place while the request is under way. */
  ghost predicate Steady(moments: seq<Moment>, place: Placement) {
    forall n: nat | n < |moments| :: Placed(moments[n].gate, place) && Placed(moments[n].after.catalog, place)
  }

  lemma PlacementDecides(m: ModelDef, n: ModelDef, id: string, p: Placement, tier: Tier)
    requires PlacedAs(m, id, p) && PlacedAs(n, id, p)
    ensures Passes(m, tier) <==> Passes(n, tier)
  {
  }

  lemma NextPasses(f: Fleet, roles: map<string, Role>, t: Target)
    requires Next(f, roles, t).Some?
    ensures var next := Next(f, roles, t).value;
            next.tier == t.tier && Passes(next.model, t.tier) && Lookup(f.catalog, next.id) == Some(next.model)
  {
    var capabilities := RoleCapabilities(roles, t.role);
    NextIsFirst(f, capabilities, t);
    hide NextOf, Passes, Admitted;
    var next := Next(f, roles, t).value;
    var i := |t.remaining| - |next.remaining| - 1;
    assert t.remaining[i].id == next.id;
    AdmittedKnown(f, capabilities, t.tier, t.tokens, next.id);
  }

  /** A request that came through a walk is never refused below its tier at dispatch: as long as entries
      stay where they are placed, the gate can do that to a directly named model only. */
  lemma {:induction false} WalkedIsNeverBelowTier(roles: map<string, Role>, t: Target, tier: Tier, body: map<string, Json>, forceDirect: bool,
                                                  moments: seq<Moment>, k: nat, place: Placement)
    requires k <= MAX_FAILOVER_ATTEMPTS < |moments|
    requires Steady(moments, place)
    requires t.tier == tier && Passes(t.model, tier) && PlacedAs(t.model, t.id, place)
    ensures Run(roles, t, tier, body, forceDirect, moments, k).final != Refused(BelowTier)
    decreases MAX_FAILOVER_ATTEMPTS - k
  {
    hide Run, Stops, NextOf, Passes, PlacedAs, MovesOn, Leaves, Wire, Suppresses, ReportsFailure, DispatchOf, Next;
    RunUnfolds(roles, t, tier, body, forceDirect, moments, k);
    EndingIsNoRefusal(moments[k].upstream, DispatchOf(roles, t, tier, body, forceDirect, moments[k], k).suppressed);
    hide Ending;
    var m := moments[k];
    SteadyAt(moments, place, k);
    hide Placed, Steady;
    if Stops(body, t, tier, m.gate, forceDirect).Some? {
      NotBelowTier(body, t, tier, m.gate, forceDirect, place);
    } else if MovesOn(roles, t, k, m) {
      var next := Next(m.after, roles, t).value;
      NextPasses(m.after, roles, t);
      PlacedLookup(m.after.catalog, next.id, place);
      WalkedIsNeverBelowTier(roles, next, tier, Leaves(body, t, tier, m.gate), forceDirect, moments, k + 1, place);
    }
  }

  lemma SteadyAt(moments: seq<Moment>, place: Placement, k: nat)
    requires k < |moments| && Steady(moments, place)
    ensures Placed(moments[k].gate, place) && Placed(moments[k].after.catalog, place)
  {
  }

  lemma PlacedLookup(cat: Catalog, id: string, place: Placement)
    requires Placed(cat, place) && Lookup(cat, id).Some?
    ensures PlacedAs(Lookup(cat, id).value, id, place)
  {
  }

  lemma NotBelowTier(body: map<string, Json>, t: Target, tier: Tier, gate: Catalog, forceDirect: bool, place: Placement)
    requires Passes(t.model, tier) && PlacedAs(t.model, t.id, place) && Placed(gate, place)
    ensures Stops(body, t, tier, gate, forceDirect) != Some(BelowTier)
  {
    if Lookup(gate, t.id).Some? {
      PlacementDecides(t.model, Lookup(gate, t.id).value, t.id, place, tier);
    }
    hide Passes, CanCarry, Filled;
  }

  /** The whole of a role request, from resolution to the last attempt: every dispatch goes to a seat that
      passes the stricter of the role's tier and the caller's. */
  lemma RoleRequestIsTierSafe(roles: map<string, Role>, f: Fleet, name: string, caller: Tier, tokens: int, order: seq<Candidate>, at: nat,
                              t: Target, body: map<string, Json>, forceDirect: bool, moments: seq<Moment>, place: Placement)
    requires name in roles && at < |order| && MAX_FAILOVER_ATTEMPTS < |moments|
    requires var tier := Stricter(RoleTier(roles[name].locality), caller);
             First(f, roles[name].capabilities, tier, tokens, order, at) && IsTarget(f, name, tier, tokens, order, at, roles[name], t)
    requires Steady(moments, place)
    requires Placed(f.catalog, place)
    ensures var tier := Stricter(RoleTier(roles[name].locality), caller);
            var run := Run(roles, t, HeldTo(t, caller), body, forceDirect, moments, 0);
            && HeldTo(t, caller) == tier
            && SafeLog(order, tier, moments, 0, run.log) && |run.log| <= 3
            && run.final != Refused(BelowTier)
  {
    var tier := Stricter(RoleTier(roles[name].locality), caller);
    AdmittedKnown(f, roles[name].capabilities, tier, tokens, order[at].id);
    assert PlacedAs(t.model, t.id, place);
    assert StandsIn(order, t);
    hide Run, Passes, Admitted, Placed, First, Steady;
    RunIsSafe(roles, t, tier, body, forceDirect, moments, 0, order);
    WalkedIsNeverBelowTier(roles, t, tier, body, forceDirect, moments, 0, place);
  }

  /** In the terms of the entries: a role that tolerates at most zero retention, or a caller who demands it, is only
      ever sent to fleet seats and to hosts held to it; a caller who demands the fleet stays on it. */
  lemma RoleRequestStaysInside(roles: map<string, Role>, f: Fleet, name: string, caller: Tier, tokens: int, order: seq<Candidate>, at: nat,
                               t: Target, body: map<string, Json>, forceDirect: bool, moments: seq<Moment>, place: Placement, n: nat)
    requires name in roles && at < |order| && MAX_FAILOVER_ATTEMPTS < |moments|
    requires var tier := Stricter(RoleTier(roles[name].locality), caller);
             First(f, roles[name].capabilities, tier, tokens, order, at) && IsTarget(f, name, tier, tokens, order, at, roles[name], t)
    requires Steady(moments, place) && Placed(f.catalog, place)
    requires n < |Run(roles, t, HeldTo(t, caller), body, forceDirect, moments, 0).log|
    ensures n < |moments| &&
            var m := Lookup(moments[n].gate, Run(roles, t, HeldTo(t, caller), body, forceDirect, moments, 0).log[n].target.id);
            && (roles[name].locality.LocalOrZdr? || !caller.TierNone? ==>
                  m.Some? && (m.value.node != "" || m.value.multiNode || (m.value.apiBase != "" && m.value.zdrHost)))
            && (caller.TierLocal? ==> m.Some? && (m.value.node != "" || m.value.multiNode))
  {
    RoleRequestIsTierSafe(roles, f, name, caller, tokens, order, at, t, body, forceDirect, moments, place);
    var tier := Stricter(RoleTier(roles[name].locality), caller);
    var run := Run(roles, t, HeldTo(t, caller), body, forceDirect, moments, 0);
    hide Run, First, IsTarget, Steady, Placed;
    assert DispatchOk(order, tier, moments, 0, run.log, n);
  }

  /** The same for a chain, whose tier is the caller's. */
  lemma ChainRequestIsTierSafe(roles: map<string, Role>, f: Fleet, id: string, m: ModelDef, caller: Tier, at: nat, t: Target,
                               body: map<string, Json>, forceDirect: bool, moments: seq<Moment>, place: Placement)
    requires MAX_FAILOVER_ATTEMPTS < |moments| && First(ChainView(f), [], caller, 0, ChainOrder(id, m), at)
    requires var c := ChainOrder(id, m)[at];
             c.id in f.catalog.active &&
             t == Target(c.id, f.catalog.active[c.id], "", "", c.chain, false, ChainOrder(id, m)[at + 1..], 0, caller, "")
    requires Steady(moments, place)
    requires Placed(f.catalog, place)
    ensures var run := Run(roles, t, HeldTo(t, caller), body, forceDirect, moments, 0);
            && SafeLog(ChainOrder(id, m), caller, moments, 0, run.log) && |run.log| <= 3
            && run.final != Refused(BelowTier)
  {
    hide ChainOrder;
    var order := ChainOrder(id, m);
    AdmittedKnown(ChainView(f), [], caller, 0, order[at].id);
    assert Lookup(f.catalog, t.id) == Some(t.model);
    assert PlacedAs(t.model, t.id, place);
    assert StandsIn(order, t);
    hide Run, Passes, Admitted, Placed, First, Steady;
    RunIsSafe(roles, t, caller, body, forceDirect, moments, 0, order);
    WalkedIsNeverBelowTier(roles, t, caller, body, forceDirect, moments, 0, place);
  }

  // ----- each seat's own defaults -------------------------------------------------------

  /** The caller's body as dispatch n finds it, earlier dispatches having written into what they share. */
  ghost function Found(body: map<string, Json>, tier: Tier, moments: seq<Moment>, k: nat, log: seq<Dispatch>, n: nat): map<string, Json>
    requires n <= |log| && k + n <= |moments|
  {
    if n == 0 then body
    else Leaves(Found(body, tier, moments, k, log, n - 1), log[n - 1].target, tier, moments[k + n - 1].gate)
  }

  lemma {:induction false} FoundLater(body: map<string, Json>, tier: Tier, moments: seq<Moment>, k: nat, d: Dispatch, rest: seq<Dispatch>, n: nat)
    requires n <= |rest| && k + 1 + n <= |moments|
    ensures Found(body, tier, moments, k, [d] + rest, n + 1) ==
            Found(Leaves(body, d.target, tier, moments[k].gate), tier, moments, k + 1, rest, n)
  {
    if n > 0 {
      FoundLater(body, tier, moments, k, d, rest, n - 1);
      hide Leaves;
      assert ([d] + rest)[n] == rest[n - 1];
    }
  }

  /** Every dispatch sends what the wire format makes of the body it found. */
  ghost predicate Faithful(body: map<string, Json>, tier: Tier, forceDirect: bool, moments: seq<Moment>, k: nat, log: seq<Dispatch>) {
    k + |log| <= |moments| &&
    forall n: nat | n < |log| :: SendsFound(body, tier, forceDirect, moments, k, log, n)
  }

  ghost predicate SendsFound(body: map<string, Json>, tier: Tier, forceDirect: bool, moments: seq<Moment>, k: nat, log: seq<Dispatch>, n: nat)
    requires n < |log| && k + n < |moments|
  {
    log[n].body == Wire(Found(body, tier, moments, k, log, n), log[n].target, tier, moments[k + n].gate, forceDirect)
  }

  lemma {:induction false} RunIsFaithful(roles: map<string, Role>, t: Target, tier: Tier, body: map<string, Json>, forceDirect: bool,
                                         moments: seq<Moment>, k: nat)
    requires k <= MAX_FAILOVER_ATTEMPTS < |moments|
    ensures Faithful(body, tier, forceDirect, moments, k, Run(roles, t, tier, body, forceDirect, moments, k).log)
    decreases MAX_FAILOVER_ATTEMPTS - k
  {
    RunUnfolds(roles, t, tier, body, forceDirect, moments, k);
    var m := moments[k];
    var d := DispatchOf(roles, t, tier, body, forceDirect, m, k);
    hide Run, Stops, Leaves, Wire, NextOf, Suppresses, ReportsFailure;
    if Stops(body, t, tier, m.gate, forceDirect).None? && MovesOn(roles, t, k, m) {
      var next := Next(m.after, roles, t).value;
      var rest := Run(roles, next, tier, Leaves(body, t, tier, m.gate), forceDirect, moments, k + 1).log;
      RunIsFaithful(roles, next, tier, Leaves(body, t, tier, m.gate), forceDirect, moments, k + 1);
      FaithfulCons(body, tier, forceDirect, moments, k, d, rest);
    }
  }

  lemma FaithfulCons(body: map<string, Json>, tier: Tier, forceDirect: bool, moments: seq<Moment>, k: nat, d: Dispatch, rest: seq<Dispatch>)
    requires k < |moments| && d.body == Wire(body, d.target, tier, moments[k].gate, forceDirect)
    requires Faithful(Leaves(body, d.target, tier, moments[k].gate), tier, forceDirect, moments, k + 1, rest)
    ensures Faithful(body, tier, forceDirect, moments, k, [d] + rest)
  {
    hide Leaves, Wire;
    forall n: nat | n < |[d] + rest|
      ensures SendsFound(body, tier, forceDirect, moments, k, [d] + rest, n)
    {
      if n > 0 {
        FoundLater(body, tier, moments, k, d, rest, n - 1);
        assert SendsFound(Leaves(body, d.target, tier, moments[k].gate), tier, forceDirect, moments, k + 1, rest, n - 1);
      }
    }
  }

  /** Some dispatch before this one wrote the directive into the caller's own provider object. */
  ghost predicate Spoiled(body: map<string, Json>, tier: Tier, moments: seq<Moment>, k: nat, log: seq<Dispatch>, n: nat)
    requires n <= |log| && k + n <= |moments|
  {
    exists j :: 0 <= j < n && NeedsDirective(log[j].target, tier, moments[k + j].gate) && Shares(body, log[j].target)
  }

  lemma {:induction false} FoundIsSpoiledOrNot(body: map<string, Json>, tier: Tier, moments: seq<Moment>, k: nat, log: seq<Dispatch>, n: nat)
    requires n <= |log| && k + n <= |moments|
    ensures Found(body, tier, moments, k, log, n) == if Spoiled(body, tier, moments, k, log, n) then Directed(body) else body
    ensures Spoiled(body, tier, moments, k, log, n) ==> HasObject(body, PROVIDER)
  {
    if n > 0 {
      FoundIsSpoiledOrNot(body, tier, moments, k, log, n - 1);
      hide NeedsDirective;
      if Spoiled(body, tier, moments, k, log, n) {
        DirectedTwice(body);
      }
    }
  }

  lemma DirectedTwice(body: map<string, Json>)
    ensures Directed(Directed(body)) == Directed(body)
  {
    var own := if HasObject(body, PROVIDER) then body[PROVIDER].fields else map[];
    var told := own[ZDR := Bool(true)];
    assert told[ZDR := Bool(true)] == told;
    assert body[PROVIDER := Obj(told)][PROVIDER := Obj(told)] == body[PROVIDER := Obj(told)];
  }

  lemma DirectCommutes(body: map<string, Json>, name: Json)
    ensures Directed(body[MODEL := name]) == Directed(body)[MODEL := name]
  {
  }

  lemma FillKeeps(body: map<string, Json>, defaults: map<string, Json>)
    ensures var out := FillMap(body, Obj(defaults));
            && out.Keys == body.Keys + defaults.Keys
            && forall k | k in out ::
                 out[k] == if k !in defaults then body[k] else if k !in body then defaults[k] else Fill(body[k], defaults[k])
  {
  }

  /** Filling in defaults and putting the directive on commute, when the provider is the caller's object. */
  lemma FillThenDirect(body: map<string, Json>, t: Target, forceDirect: bool)
    requires HasObject(body, PROVIDER)
    ensures Filled(Directed(body), t, forceDirect) == Directed(Filled(body, t, forceDirect))
  {
    DefaultsAreObject(t);
    hide Defaults, Directed, FillMap, SentAs;
    FillMapThenDirect(body, Defaults(t).fields);
    DirectCommutes(FillMap(body, Defaults(t)), Str(SentAs(t, forceDirect)));
  }

  lemma FillMapThenDirect(body: map<string, Json>, d: map<string, Json>)
    requires HasObject(body, PROVIDER)
    ensures FillMap(Directed(body), Obj(d)) == Directed(FillMap(body, Obj(d)))
  {
    FillKeeps(body, d);
    FillKeeps(Directed(body), d);
    hide Fill, FillMap;
    var (a, b) := (FillMap(Directed(body), Obj(d)), Directed(FillMap(body, Obj(d))));
    ProviderFilled(body[PROVIDER].fields, if PROVIDER in d then d[PROVIDER] else Null);
    assert a.Keys == b.Keys;
    forall k | k in a
      ensures a[k] == b[k]
    {
    }
  }

  lemma ProviderFilled(p: map<string, Json>, q: Json)
    ensures Fill(Obj(p), q).Obj?
    ensures Fill(Obj(p[ZDR := Bool(true)]), q) == Obj(Fill(Obj(p), q).fields[ZDR := Bool(true)])
  {
  }

  /** A seat that gets the directive is sent the same whether or not an earlier seat spoiled the body; any
      other seat is, exactly if its filled-in provider says zero retention anyway. */
  lemma SpoiledIsSeen(body: map<string, Json>, t: Target, tier: Tier, gate: Catalog, forceDirect: bool)
    requires HasObject(body, PROVIDER)
    ensures var (clean, spoiled) := (Wire(body, t, tier, gate, forceDirect), Wire(Directed(body), t, tier, gate, forceDirect));
            spoiled == clean <==> NeedsDirective(t, tier, gate) || Directed(Filled(body, t, forceDirect)) == Filled(body, t, forceDirect)
  {
    FillThenDirect(body, t, forceDirect);
    DirectedTwice(Filled(body, t, forceDirect));
    hide Filled, Directed;
  }

  /** Each attempt sends the caller's body with its own seat's defaults, whatever was tried before, unless
      it goes to a seat without a directive after a directive went into the caller's own provider object;
      then it does exactly if the provider says zero retention anyway. */
  lemma AttemptsAreIndependent(roles: map<string, Role>, t: Target, tier: Tier, body: map<string, Json>, forceDirect: bool,
                               moments: seq<Moment>, n: nat)
    requires MAX_FAILOVER_ATTEMPTS < |moments|
    requires n < |Run(roles, t, tier, body, forceDirect, moments, 0).log|
    ensures var log := Run(roles, t, tier, body, forceDirect, moments, 0).log;
            n < |moments| &&
            var (seat, gate) := (log[n].target, moments[n].gate);
            log[n].body == Wire(body, seat, tier, gate, forceDirect) <==>
              || !Spoiled(body, tier, moments, 0, log, n)
              || NeedsDirective(seat, tier, gate)
              || Directed(Filled(body, seat, forceDirect)) == Filled(body, seat, forceDirect)
  {
    RunIsFaithful(roles, t, tier, body, forceDirect, moments, 0);
    hide Run, Wire, Directed, Filled, NeedsDirective;
    var log := Run(roles, t, tier, body, forceDirect, moments, 0).log;
    assert SendsFound(body, tier, forceDirect, moments, 0, log, n);
    FoundIsSpoiledOrNot(body, tier, moments, 0, log, n);
    hide Spoiled, Found;
    if Spoiled(body, tier, moments, 0, log, n) {
      SpoiledIsSeen(body, log[n].target, tier, moments[n].gate, forceDirect);
    }
  }

  // ----- what every dispatch carries ----------------------------------------------------

  /** The tool proxy is used as the endpoint, the alias and the entry say, in that order. */
  lemma ViaToolProxyRules(t: Target, forceDirect: bool)
    ensures forceDirect || t.model.external ==> !ViaToolProxy(t, forceDirect)
    ensures var ov := t.model.defaults.overrides;
            !forceDirect && !t.model.external && t.alias != "" && t.alias in ov && ov[t.alias].toolProxy.Some? ==>
              (ViaToolProxy(t, forceDirect) <==> ov[t.alias].toolProxy.value)
    ensures !forceDirect && !t.model.external && t.alias == "" ==> (ViaToolProxy(t, forceDirect) <==> t.model.toolProxy)
  {
  }

  /** The seat's name is on it; what the caller said outside objects stands, and what it said in them is merged with
      the defaults; the defaults it left unsaid are there; and nothing else is. */
  ghost predicate Carries(body: map<string, Json>, t: Target, forceDirect: bool, sent: map<string, Json>) {
    && MODEL in sent && sent[MODEL] == Str(if ViaToolProxy(t, forceDirect) then t.id else BackendName(t.model.hfRepo))
    && (forall k | k in body && k != MODEL && k != PROVIDER && !body[k].Obj? :: k in sent && sent[k] == body[k])
    && Defaults(t).Obj?
    && (forall k | k in body && k != MODEL && k != PROVIDER && body[k].Obj? ::
          k in sent && sent[k] == if k in Defaults(t).fields then Fill(body[k], Defaults(t).fields[k]) else body[k])
    && (forall k | k in Defaults(t).fields && k !in body && k != MODEL && k != PROVIDER :: k in sent && sent[k] == Defaults(t).fields[k])
    && (forall k | k in sent && k != MODEL && k != PROVIDER :: k in body || k in Defaults(t).fields)
  }

  /** A request's defaults, value by value: those of the model; and under an alias that overrides them those of the
      alias, then its shorthand, then the model's, each where the ones before left the path unsaid. */
  lemma DefaultsExact(t: Target, p: Path, v: Json)
    requires !v.Obj?
    ensures var (ovs, model) := (t.model.defaults.overrides, Obj(t.model.defaults.requestDefaults));
            if t.alias != "" && t.alias in ovs then
              var own := Obj(ovs[t.alias].requestDefaults);
              Get(Defaults(t), p) == Some(v) <==>
                || Get(own, p) == Some(v)
                || (Open(own, p) && p[0] == CHAT_TEMPLATE_KWARGS && Get(Obj(ovs[t.alias].chatTemplateKwargs), p[1..]) == Some(v))
                || (Open(own, p) && (forall n: nat | n <= |p| && Open(own, p[..n]) :: Silent(Shorthand(ovs[t.alias]), p, n)) && Get(model, p) == Some(v))
            else Get(Defaults(t), p) == Get(model, p)
  {
    if t.alias != "" && t.alias in t.model.defaults.overrides {
      LevelsExact(t.model.defaults.overrides[t.alias], Obj(t.model.defaults.requestDefaults), p, v);
    }
  }

  lemma FilledCarries(body: map<string, Json>, t: Target, forceDirect: bool)
    ensures Carries(body, t, forceDirect, Filled(body, t, forceDirect))
  {
    DefaultsAreObject(t);
    FillKeeps(body, Defaults(t).fields);
    FilledIsObject(body, t);
    hide Defaults, FillMap, BackendName, ViaToolProxy;
  }

  lemma DirectedCarries(body: map<string, Json>, t: Target, forceDirect: bool, sent: map<string, Json>)
    requires Carries(body, t, forceDirect, sent)
    ensures Carries(body, t, forceDirect, Directed(sent)) && SaysZdr(Directed(sent))
  {
    hide Defaults, BackendName, ViaToolProxy;
  }

  lemma WireCarries(body: map<string, Json>, t: Target, tier: Tier, gate: Catalog, forceDirect: bool)
    ensures Carries(body, t, forceDirect, Wire(body, t, tier, gate, forceDirect))
    ensures NeedsDirective(t, tier, gate) ==> SaysZdr(Wire(body, t, tier, gate, forceDirect))
  {
    hide Carries, SaysZdr, Filled, Directed, NeedsDirective;
    FilledCarries(body, t, forceDirect);
    DirectedCarries(body, t, forceDirect, Filled(body, t, forceDirect));
  }

  lemma FilledIsObject(body: map<string, Json>, t: Target)
    ensures Defaults(t).Obj?
    ensures forall k | k in body && body[k].Obj? && k in Defaults(t).fields :: Fill(body[k], Defaults(t).fields[k]).Obj?
    ensures forall k | k in body && !body[k].Obj? && k in Defaults(t).fields :: Fill(body[k], Defaults(t).fields[k]) == body[k]
  {
    DefaultsAreObject(t);
    hide Defaults;
  }

  /** An earlier dispatch can only have written into the provider. */
  lemma CarriesThrough(body: map<string, Json>, t: Target, forceDirect: bool, sent: map<string, Json>)
    requires Carries(Directed(body), t, forceDirect, sent)
    ensures Carries(body, t, forceDirect, sent)
  {
    hide Defaults, BackendName, ViaToolProxy;
  }

  /** Every dispatch of every run carries the caller's body with its own seat's name and defaults; and under
      a tier, every dispatch to a seat that is not on the fleet tells the upstream to keep nothing. */
  lemma EveryDispatchCarries(roles: map<string, Role>, t: Target, tier: Tier, body: map<string, Json>, forceDirect: bool,
                             moments: seq<Moment>, n: nat)
    requires MAX_FAILOVER_ATTEMPTS < |moments|
    requires n < |Run(roles, t, tier, body, forceDirect, moments, 0).log|
    ensures var d := Run(roles, t, tier, body, forceDirect, moments, 0).log[n];
            && n < |moments| && Carries(body, d.target, forceDirect, d.body)
            && (!tier.TierNone? ==>
                  var m := Lookup(moments[n].gate, d.target.id);
                  m.Some? && (!IsLocal(m.value) ==> SaysZdr(d.body)))
  {
    hide Run, Wire, Directed, Filled, Carries, SaysZdr, Passes;
    RunIsFaithful(roles, t, tier, body, forceDirect, moments, 0);
    RunIsAllowed(roles, t, tier, body, forceDirect, moments, 0);
    var log := Run(roles, t, tier, body, forceDirect, moments, 0).log;
    assert SendsFound(body, tier, forceDirect, moments, 0, log, n);
    assert Allowed(moments[0 + n].gate, log[n].target.id, tier);
    FoundIsSpoiledOrNot(body, tier, moments, 0, log, n);
    WireCarries(Found(body, tier, moments, 0, log, n), log[n].target, tier, moments[n].gate, forceDirect);
    hide Spoiled, Found;
    if Spoiled(body, tier, moments, 0, log, n) {
      CarriesThrough(body, log[n].target, forceDirect, log[n].body);
    }
  }

  /** What the provider field is once the seat's defaults are filled in. */
  function ProviderOf(body: map<string, Json>, t: Target): Json {
    if PROVIDER in body then body[PROVIDER]
    else if Defaults(t).Obj? && PROVIDER in Defaults(t).fields then Defaults(t).fields[PROVIDER]
    else Null
  }

  lemma CarriesIff(body: map<string, Json>, t: Target, forceDirect: bool)
    ensures CanCarry(Filled(body, t, forceDirect)) <==> ProviderOf(body, t).Null? || ProviderOf(body, t).Obj?
  {
    DefaultsAreObject(t);
    FillKeeps(body, Defaults(t).fields);
    FilledIsObject(body, t);
    hide Defaults, FillMap, BackendName, ViaToolProxy;
  }

  /** An attempt is stopped at the gate exactly if it is held to a tier and its seat is gone, or does not pass,
      or is off the fleet while the provider field can carry no directive. */
  lemma StoppedExactly(roles: map<string, Role>, t: Target, tier: Tier, body: map<string, Json>, forceDirect: bool, moments: seq<Moment>, k: nat)
    requires k <= MAX_FAILOVER_ATTEMPTS < |moments|
    ensures var run := Run(roles, t, tier, body, forceDirect, moments, k);
            var m := Lookup(moments[k].gate, t.id);
            && (run.log == [] ==> run.final.Refused?)
            && (run.log == [] <==>
                !tier.TierNone? &&
                (m.None? || !Passes(m.value, tier) || (!IsLocal(m.value) && !ProviderOf(body, t).Null? && !ProviderOf(body, t).Obj?)))
  {
    CarriesIff(body, t, forceDirect);
    hide Filled, CanCarry, ProviderOf, Wire, Leaves, ReportsFailure, NextOf, Suppresses, Ending;
    RunUnfolds(roles, t, tier, body, forceDirect, moments, k);
    hide Run;
  }

  // ----- how an attempt ends ------------------------------------------------------------

  ghost predicate AnotherSeat(roles: map<string, Role>, f: Fleet, t: Target) {
    exists c :: c in t.remaining && Admitted(f, if t.role in roles then roles[t.role].capabilities else [], t.tier, t.tokens, c.id)
  }

  /** An answer held back for the sake of another seat: a server error, too many requests, or an error in a
      success's clothes. */
  predicate HeldBack(u: Upstream, suppressed: bool) {
    suppressed && u.Answers? && (u.status >= 500 || u.status == 429 || (u.status < 300 && u.envelope))
  }

  /** All of one attempt: of a role or a chain, and before the third, answers are held back exactly while the order
      has another seat to offer; the
      request goes on exactly if nothing reached the client, attempts are left and there is one still; and
      else the client gets the answer, what was cut off, or a gateway error. */
  ghost predicate AttemptSays(roles: map<string, Role>, m: Moment, d: Dispatch, k: nat, wentOn: bool, final: Final) {
    var more := (d.target.role != "" || d.target.chain != "") && k < 2;
    && (d.suppressed <==> more && AnotherSeat(roles, m.ahead, d.target))
    && (wentOn <==> more && AnotherSeat(roles, m.after, d.target) && (m.upstream == Broke(false) || HeldBack(m.upstream, d.suppressed)))
    && (!wentOn ==> final == if m.upstream == Broke(true) then CutOff
                             else if m.upstream.Broke? || HeldBack(m.upstream, d.suppressed) then BadGateway
                             else Forwarded)
    && (d.reportedFailure <==>
        || m.upstream.Broke? || HeldBack(m.upstream, d.suppressed)
        || (m.upstream.Answers? && m.upstream.status == 503
            && Lookup(m.after.catalog, d.target.id).Some? && IsLocal(Lookup(m.after.catalog, d.target.id).value)))
  }

  lemma AnotherIsNext(roles: map<string, Role>, f: Fleet, t: Target)
    ensures AnotherSeat(roles, f, t) <==> Next(f, roles, t).Some?
  {
    NextExists(f, RoleCapabilities(roles, t.role), t);
    hide NextOf, Admitted;
  }

  lemma OneAttemptSays(roles: map<string, Role>, t: Target, tier: Tier, body: map<string, Json>, forceDirect: bool, m: Moment, k: nat)
    ensures var d := DispatchOf(roles, t, tier, body, forceDirect, m, k);
            && (MovesOn(roles, t, k, m) ==> forall final :: AttemptSays(roles, m, d, k, true, final))
            && (!MovesOn(roles, t, k, m) ==> AttemptSays(roles, m, d, k, false, Ending(m.upstream, d.suppressed)))
  {
    AnotherIsNext(roles, m.ahead, t);
    AnotherIsNext(roles, m.after, t);
    hide AnotherSeat, Next, Wire;
  }

  /** What is said of every attempt holds of every attempt of every run. */
  lemma {:induction false} RunSays(roles: map<string, Role>, t: Target, tier: Tier, body: map<string, Json>, forceDirect: bool,
                                   moments: seq<Moment>, k: nat)
    requires k <= MAX_FAILOVER_ATTEMPTS < |moments|
    ensures var run := Run(roles, t, tier, body, forceDirect, moments, k);
            && k + |run.log| <= 1 + MAX_FAILOVER_ATTEMPTS
            && forall n: nat | n < |run.log| ::
                 AttemptSays(roles, moments[k + n], run.log[n], k + n, n + 1 < |run.log| || run.final.Refused?, run.final)
    decreases MAX_FAILOVER_ATTEMPTS - k
  {
    hide Run, Stops, Wire, Leaves, ReportsFailure, NextOf, Suppresses, MovesOn, Ending, Next, AttemptSays, DispatchOf;
    RunUnfolds(roles, t, tier, body, forceDirect, moments, k);
    var m := moments[k];
    if Stops(body, t, tier, m.gate, forceDirect).None? {
      OneAttemptSays(roles, t, tier, body, forceDirect, m, k);
      var d := DispatchOf(roles, t, tier, body, forceDirect, m, k);
      if MovesOn(roles, t, k, m) {
        var rest := Run(roles, Next(m.after, roles, t).value, tier, Leaves(body, t, tier, m.gate), forceDirect, moments, k + 1);
        RunSays(roles, Next(m.after, roles, t).value, tier, Leaves(body, t, tier, m.gate), forceDirect, moments, k + 1);
        RefusedIfEmpty(roles, Next(m.after, roles, t).value, tier, Leaves(body, t, tier, m.gate), forceDirect, moments, k + 1);
        SaysCons(roles, moments, k, d, rest);
      } else {
        EndingIsNoRefusal(m.upstream, d.suppressed);
      }
    }
  }

  lemma EndingIsNoRefusal(u: Upstream, suppress: bool)
    ensures !Ending(u, suppress).Refused?
  {
  }

  lemma SaysCons(roles: map<string, Role>, moments: seq<Moment>, k: nat, d: Dispatch, rest: Outcome)
    requires k < MAX_FAILOVER_ATTEMPTS < |moments| && k + 1 + |rest.log| <= 1 + MAX_FAILOVER_ATTEMPTS
    requires AttemptSays(roles, moments[k], d, k, true, rest.final) && (rest.log == [] ==> rest.final.Refused?)
    requires forall n: nat | n < |rest.log| ::
               AttemptSays(roles, moments[k + 1 + n], rest.log[n], k + 1 + n, n + 1 < |rest.log| || rest.final.Refused?, rest.final)
    ensures var log := [d] + rest.log;
            forall n: nat | n < |log| :: AttemptSays(roles, moments[k + n], log[n], k + n, n + 1 < |log| || rest.final.Refused?, rest.final)
  {
    hide AttemptSays;
    var log := [d] + rest.log;
    forall n: nat | n < |log|
      ensures AttemptSays(roles, moments[k + n], log[n], k + n, n + 1 < |log| || rest.final.Refused?, rest.final)
    {
      if n > 0 {
        assert AttemptSays(roles, moments[k + 1 + (n - 1)], rest.log[n - 1], k + 1 + (n - 1), n - 1 + 1 < |rest.log| || rest.final.Refused?, rest.final);
      }
    }
  }

  // ----- the last candidate's answer ----------------------------------------------------

  /** The look ahead finds another seat, and the walk after the failure finds none. */
  predicate Disagree(roles: map<string, Role>, t: Target, k: nat, m: Moment) {
    Walks(t) && k < MAX_FAILOVER_ATTEMPTS && Next(m.ahead, roles, t).Some? && Next(m.after, roles, t).None?
  }

  /** On the last viable candidate the upstream's own answer is meant to pass through. A client gets a
      gateway error in place of an answer exactly when the last attempt's answer was retryable and the two
      walks around it disagreed. */
  lemma {:induction false} AnswerIsLostExactly(roles: map<string, Role>, t: Target, tier: Tier, body: map<string, Json>, forceDirect: bool,
                                               moments: seq<Moment>, k: nat)
    requires k <= MAX_FAILOVER_ATTEMPTS < |moments|
    ensures var run := Run(roles, t, tier, body, forceDirect, moments, k);
            k + |run.log| <= MAX_FAILOVER_ATTEMPTS + 1 && LostExactly(roles, moments, k, run)
    decreases MAX_FAILOVER_ATTEMPTS - k
  {
    RunUnfolds(roles, t, tier, body, forceDirect, moments, k);
    hide Run, Stops, NextOf, Leaves, Wire, ReportsFailure, MovesOn, Disagree, Suppresses, LostExactly, Ending;
    var m := moments[k];
    var d := DispatchOf(roles, t, tier, body, forceDirect, m, k);
    if Stops(body, t, tier, m.gate, forceDirect).Some? {
      NothingLost(roles, moments, k, Run(roles, t, tier, body, forceDirect, moments, k));
    } else if MovesOn(roles, t, k, m) {
      var next := Next(m.after, roles, t).value;
      AnswerIsLostExactly(roles, next, tier, Leaves(body, t, tier, m.gate), forceDirect, moments, k + 1);
      RefusedIfEmpty(roles, next, tier, Leaves(body, t, tier, m.gate), forceDirect, moments, k + 1);
      NoDisagreement(roles, t, k, m);
      LostCons(roles, moments, k, d, Run(roles, next, tier, Leaves(body, t, tier, m.gate), forceDirect, moments, k + 1));
    } else {
      LostHere(roles, moments, k, d);
    }
  }

  lemma NothingLost(roles: map<string, Role>, moments: seq<Moment>, k: nat, run: Outcome)
    requires k <= |moments| && run.log == [] && run.final.Refused?
    ensures LostExactly(roles, moments, k, run)
  {
  }

  lemma RefusedIfEmpty(roles: map<string, Role>, t: Target, tier: Tier, body: map<string, Json>, forceDirect: bool, moments: seq<Moment>, k: nat)
    requires k <= MAX_FAILOVER_ATTEMPTS < |moments|
    ensures var run := Run(roles, t, tier, body, forceDirect, moments, k); run.log == [] ==> run.final.Refused?
  {
    RunUnfolds(roles, t, tier, body, forceDirect, moments, k);
    hide Run, Stops, NextOf, Leaves, Wire, ReportsFailure, MovesOn, Suppresses, Ending;
  }

  lemma NoDisagreement(roles: map<string, Role>, t: Target, k: nat, m: Moment)
    requires MovesOn(roles, t, k, m)
    ensures !Disagree(roles, t, k, m)
  {
    hide NextOf;
  }

  lemma LostHere(roles: map<string, Role>, moments: seq<Moment>, k: nat, d: Dispatch)
    requires k < |moments| && d.suppressed == Suppresses(roles, d.target, k, moments[k]) && !MovesOn(roles, d.target, k, moments[k])
    ensures LostExactly(roles, moments, k, Outcome([d], Ending(moments[k].upstream, d.suppressed)))
  {
    hide NextOf;
  }

  ghost predicate LostExactly(roles: map<string, Role>, moments: seq<Moment>, k: nat, run: Outcome)
    requires k + |run.log| <= |moments|
  {
    var n := |run.log| - 1;
    (run.final.BadGateway? && n >= 0 && moments[k + n].upstream.Answers?) <==>
    (n >= 0 && Retryable(moments[k + n].upstream) && Disagree(roles, run.log[n].target, k + n, moments[k + n]))
  }

  lemma LostCons(roles: map<string, Role>, moments: seq<Moment>, k: nat, d: Dispatch, rest: Outcome)
    requires k < MAX_FAILOVER_ATTEMPTS < |moments| && k + 1 + |rest.log| <= |moments| && LostExactly(roles, moments, k + 1, rest)
    requires rest.log == [] ==> rest.final.Refused? && !Disagree(roles, d.target, k, moments[k])
    ensures LostExactly(roles, moments, k, Outcome([d] + rest.log, rest.final))
  {
    hide Disagree;
    if rest.log != [] {
      var n := |rest.log| - 1;
      assert ([d] + rest.log)[n + 1] == rest.log[n];
    }
  }

  /** The walks agree when the failure takes only the failed seat itself out and the tail does not hold it
      again, so then no answer is lost. */
  lemma DistinctSeatsAgree(roles: map<string, Role>, t: Target, k: nat, m: Moment)
    requires m.after.catalog == m.ahead.catalog && m.after.placed == m.ahead.placed
    requires forall id | id in m.ahead.routable && id != t.id :: id in m.after.routable
    requires forall c | c in t.remaining :: c.id != t.id
    ensures !Disagree(roles, t, k, m)
  {
    var capabilities := RoleCapabilities(roles, t.role);
    NextExists(m.ahead, capabilities, t);
    NextExists(m.after, capabilities, t);
    hide NextOf, Passes, Gap, Fits;
    if !NoneAdmitted(m.ahead, capabilities, t.tier, t.tokens, t.remaining) {
      var c :| c in t.remaining && Admitted(m.ahead, capabilities, t.tier, t.tokens, c.id);
      assert Admitted(m.after, capabilities, t.tier, t.tokens, c.id);
    }
  }

  /** The report of a failure takes the failed seat out of the fleet, or leaves it as it is. */
  predicate TakesOutAtMost(m: Moment, id: string) {
    && m.after.catalog == m.ahead.catalog && m.after.placed == m.ahead.placed
    && (m.after.routable == m.ahead.routable || m.after.routable == m.ahead.routable - {id})
  }

  /** Then the walks disagree exactly when the failed seat was taken out and is the only one its own tail
      still had to offer. */
  lemma RepeatedSeatDisagrees(roles: map<string, Role>, t: Target, k: nat, m: Moment)
    requires Walks(t) && k < MAX_FAILOVER_ATTEMPTS && TakesOutAtMost(m, t.id)
    ensures var capabilities := RoleCapabilities(roles, t.role);
            Disagree(roles, t, k, m) <==>
            && t.id !in m.after.routable
            && (exists c :: c in t.remaining && Admitted(m.ahead, capabilities, t.tier, t.tokens, c.id))
            && forall c | c in t.remaining && Admitted(m.ahead, capabilities, t.tier, t.tokens, c.id) :: c.id == t.id
  {
    var capabilities := RoleCapabilities(roles, t.role);
    NextExists(m.ahead, capabilities, t);
    NextExists(m.after, capabilities, t);
    hide NextOf, Passes, Gap, Fits;
    forall id
      ensures Admitted(m.after, capabilities, t.tier, t.tokens, id) <==>
              Admitted(m.ahead, capabilities, t.tier, t.tokens, id) && id in m.after.routable
    {
    }
    hide Admitted;
  }

  /** A caller's own provider object, a seat that gets the directive, then a fleet seat: the second body
      carries what was written for the first. */
  lemma SpoiledWitness(cloud: Target, fleet: Target, gate: Catalog)
    requires cloud.model.defaults == ModelDefaults(map[], map[]) == fleet.model.defaults && cloud.alias == "" == fleet.alias
    requires Lookup(gate, cloud.id) == Some(cloud.model) && !IsLocal(cloud.model) && ZdrEnforceable(cloud.model)
    requires Lookup(gate, fleet.id) == Some(fleet.model) && IsLocal(fleet.model)
    ensures var body := map[PROVIDER := Obj(map[])];
            && Stops(body, cloud, TierZdr, gate, false).None?
            && var (after, alone) := (Wire(Leaves(body, cloud, TierZdr, gate), fleet, TierZdr, gate, false), Wire(body, fleet, TierZdr, gate, false));
               && PROVIDER in after && after[PROVIDER] == Obj(map[ZDR := Bool(true)])
               && PROVIDER in alone && alone[PROVIDER] == Obj(map[])
  {
    hide BackendName;
    var body: map<string, Json> := map[PROVIDER := Obj(map[])];
    FillKeeps(body, map[]);
    FillKeeps(Directed(body), map[]);
    hide Fill;
  }
}
