/** Binding a role or a chain to a seat: privacy tiers, the candidate walk, and the walk on from a
    failed seat (internal/router/roles.go, resolve.go, privacy.go, scope.go). */
module Resolution {
  import opened RequestDefaults
  import opened Registries
  import opened Candidates
  import opened Pressures
  import Sorting

  // ----- privacy tiers ------------------------------------------------------------------

  datatype Tier = TierNone | TierZdr | TierLocal

  function Strictness(t: Tier): nat {
    match t
    case TierNone => 0
    case TierZdr => 1
    case TierLocal => 2
  }

  /** The stricter of two requirements. */
  function Stricter(a: Tier, b: Tier): (t: Tier)
    ensures Strictness(t) >= Strictness(a) && Strictness(t) >= Strictness(b) && (t == a || t == b)
  {
    if Strictness(a) >= Strictness(b) then a else b
  }

  /** The tier a role declares: only a retention tolerance is one; "local" is a load-time promise. */
  function RoleTier(l: Locality): Tier {
    if l.LocalOrZdr? then TierZdr else TierNone
  }

  method EffectiveTier(l: Locality, caller: Tier) returns (t: Tier)
    ensures t == Stricter(RoleTier(l), caller)
  {
    if l.LocalOrZdr? && Strictness(caller) < Strictness(TierZdr) {
      return TierZdr;
    }
    return caller;
  }

  predicate Passes(m: ModelDef, t: Tier) {
    t.TierNone? || IsLocal(m) || (t.TierZdr? && ZdrEnforceable(m))
  }

  /** The caller's header, already trimmed and lower-cased. */
  function HeaderTier(header: string): Option<Tier> {
    if header == "" || header == "any" then Some(TierNone)
    else if header == "zdr" then Some(TierZdr)
    else if header == "local" then Some(TierLocal)
    else None
  }

  function ScopeTier(scope: string): Tier {
    if scope == "models:local" then TierLocal else if scope == "models:local_or_zdr" then TierZdr else TierNone
  }

  /** What one request is held to; scope is "" unless the token's scope is the binding requirement. */
  datatype Demand = Demand(tier: Tier, scope: string)

  /** A header that names no tier is refused whatever the token may do; otherwise the stricter of header
      and scope binds, and the scope answers for it when it is at least as strict. */
  method PrivacyDemandFor(header: string, scope: Option<string>) returns (d: Option<Demand>)
    ensures d.None? <==> HeaderTier(header).None?
    ensures d.Some? ==>
              var (h, s) := (HeaderTier(header).value, if scope.Some? then ScopeTier(scope.value) else TierNone);
              && d.value.tier == Stricter(s, h)
              && d.value.scope == if !s.TierNone? && Strictness(s) >= Strictness(h) then scope.value else ""
    ensures d.None? <==> header !in {"", "any", "zdr", "local"}
    ensures d.Some? ==>
              && (d.value.tier.TierLocal? <==> header == "local" || scope == Some("models:local"))
              && (d.value.tier.TierNone? <==> header in {"", "any"} && scope !in {Some("models:local"), Some("models:local_or_zdr")})
  {
    var h := HeaderTier(header);
    if h.None? {
      return None;
    }
    var out := Demand(h.value, "");
    if scope.None? {
      return Some(out);
    }
    var st := ScopeTier(scope.value);
    if !st.TierNone? && Strictness(st) >= Strictness(h.value) {
      out := Demand(st, scope.value);
    }
    return Some(out);
  }

  // ----- what a candidate can do right now ----------------------------------------------

  const SLACK := 1.25

  /** The envelope: the hard window with slack for the estimate, and the soft one. No size, no gate. */
  predicate Fits(m: ModelDef, tokens: int) {
    tokens <= 0 ||
    (!(m.window > 0 && tokens as real > m.window as real * SLACK) && !(m.effectiveContext > 0 && tokens > m.effectiveContext))
  }

  /** The fleet as one walk finds it: what can be named, what the tracker routes to, and which entries
      without an api_base the registry can place. */
  datatype Fleet = Fleet(catalog: Catalog, routable: set<string>, placed: set<string>)

  predicate Builds(f: Fleet, id: string, m: ModelDef) {
    m.apiBase != "" || id in f.placed
  }

  /** A discovered member must prove the capabilities load time could not check. */
  predicate Gap(m: ModelDef, capabilities: seq<string>) {
    IsDiscovered(m) && exists c :: c in capabilities && c !in m.capabilities
  }

  predicate Admitted(f: Fleet, capabilities: seq<string>, tier: Tier, tokens: int, id: string) {
    var m := Lookup(f.catalog, id);
    && m.Some? && Passes(m.value, tier) && !Gap(m.value, capabilities)
    && id in f.routable && Fits(m.value, tokens) && Builds(f, id, m.value)
  }

  /** In the terms of the entry alone: it is in the mode or else adopted, the tracker routes to it and it has an
      address; under a tier it is a fleet seat, or, if zero retention is enough, at a host held to that; a discovered
      member has the capabilities; and the prompt is at most a quarter over its window and within its context. */
  lemma AdmittedExactly(f: Fleet, capabilities: seq<string>, tier: Tier, tokens: int, id: string)
    ensures Admitted(f, capabilities, tier, tokens, id) <==>
              && (id in f.catalog.active || id in f.catalog.discovered) && id in f.routable
              && var m := if id in f.catalog.active then f.catalog.active[id] else f.catalog.discovered[id];
                 && (tier.TierLocal? ==> m.node != "" || m.multiNode)
                 && (tier.TierZdr? ==> m.node != "" || m.multiNode || (m.apiBase != "" && m.zdrHost))
                 && (DISCOVERED in m.tags ==> forall c | c in capabilities :: c in m.capabilities)
                 && (tokens > 0 && m.window > 0 ==> 4 * tokens <= 5 * m.window)
                 && (tokens > 0 && m.effectiveContext > 0 ==> tokens <= m.effectiveContext)
                 && (m.apiBase != "" || id in f.placed)
  {
  }

  /** Where a request goes; alias is the alias the caller used, "" if none. */
  datatype Target = Target(
    id: string, model: ModelDef, alias: string, role: string, chain: string, overflowed: bool, remaining: seq<Candidate>,
    tokens: int, tier: Tier, downshift: string)

  datatype Resolution =
    | Served(target: Target)
    | PolicyRefused(subject: string, tier: Tier, excluded: seq<string>)
    | Unavailable(subject: string, reasons: seq<string>)
    | Unknown

  // ----- the verdict of policy ----------------------------------------------------------

  /** The walk can say more of this candidate than that policy excludes it: it complies; or, in a role,
      it is a discovered member its provider does not list; or, in a chain, it is not there at all. */
  predicate Pending(r: Registry, cat: Catalog, tier: Tier, chain: bool, id: string) {
    var m := Lookup(cat, id);
    if m.None? then chain || IsMember(r, id) else Passes(m.value, tier)
  }

  predicate Excluded(cat: Catalog, tier: Tier, id: string) {
    var m := Lookup(cat, id);
    m.Some? && !Passes(m.value, tier)
  }

  /** Policy alone rules the whole order out. */
  ghost predicate PolicyBlocked(r: Registry, cat: Catalog, tier: Tier, chain: bool, order: seq<Candidate>) {
    (exists c :: c in order && Excluded(cat, tier, c.id)) && forall c | c in order :: !Pending(r, cat, tier, chain, c.id)
  }

  /** Position i is the first admitted one. */
  ghost predicate First(f: Fleet, capabilities: seq<string>, tier: Tier, tokens: int, order: seq<Candidate>, i: nat) {
    && i < |order| && Admitted(f, capabilities, tier, tokens, order[i].id)
    && forall k | 0 <= k < i :: !Admitted(f, capabilities, tier, tokens, order[k].id)
  }

  ghost predicate NoneAdmitted(f: Fleet, capabilities: seq<string>, tier: Tier, tokens: int, order: seq<Candidate>) {
    forall c | c in order :: !Admitted(f, capabilities, tier, tokens, c.id)
  }

  /** What the lists of a walk say about the candidates passed so far. */
  ghost predicate Noted(r: Registry, cat: Catalog, tier: Tier, chain: bool, passed: seq<Candidate>, excluded: seq<string>, reasons: seq<string>) {
    && (forall id :: id in excluded <==> exists c :: c in passed && c.id == id && Excluded(cat, tier, id))
    && (forall id :: id in reasons <==> exists c :: c in passed && c.id == id && Pending(r, cat, tier, chain, id))
  }

  lemma NotedNothing(r: Registry, cat: Catalog, tier: Tier, chain: bool)
    ensures Noted(r, cat, tier, chain, [], [], [])
  {
  }

  lemma NotedMore(r: Registry, cat: Catalog, tier: Tier, chain: bool, passed: seq<Candidate>, c: Candidate, excluded: seq<string>, reasons: seq<string>)
    requires Noted(r, cat, tier, chain, passed, excluded, reasons)
    ensures Noted(r, cat, tier, chain, passed + [c],
                  if Excluded(cat, tier, c.id) then excluded + [c.id] else excluded,
                  if Pending(r, cat, tier, chain, c.id) then reasons + [c.id] else reasons)
  {
    hide Excluded, Pending;
    var more := passed + [c];
    assert forall x :: x in more <==> x in passed || x == c;
  }

  lemma NotedBlocked(r: Registry, cat: Catalog, tier: Tier, chain: bool, order: seq<Candidate>, excluded: seq<string>, reasons: seq<string>)
    requires Noted(r, cat, tier, chain, order, excluded, reasons)
    ensures PolicyBlocked(r, cat, tier, chain, order) <==> excluded != [] && reasons == []
  {
    hide Excluded, Pending;
    if excluded != [] {
      assert excluded[0] in excluded;
    }
    if reasons != [] {
      assert reasons[0] in reasons;
    }
  }

  // ----- the walks ----------------------------------------------------------------------

  /** All is well with this candidate but its size. */
  predicate TooSmall(f: Fleet, capabilities: seq<string>, tier: Tier, tokens: int, id: string) {
    var m := Lookup(f.catalog, id);
    m.Some? && Passes(m.value, tier) && !Gap(m.value, capabilities) && id in f.routable && !Fits(m.value, tokens)
  }

  /** The first candidate passed over for its size, "" if none was. */
  function Downshift(f: Fleet, capabilities: seq<string>, tier: Tier, tokens: int, passed: seq<Candidate>): string {
    if passed == [] then ""
    else
      var before := Downshift(f, capabilities, tier, tokens, passed[..|passed| - 1]);
      var id := passed[|passed| - 1].id;
      if before == "" && TooSmall(f, capabilities, tier, tokens, id) then id else before
  }

  /** Candidate k is the first that only its size kept out. */
  predicate FirstTooSmall(f: Fleet, capabilities: seq<string>, tier: Tier, tokens: int, passed: seq<Candidate>, k: int) {
    && 0 <= k < |passed| && TooSmall(f, capabilities, tier, tokens, passed[k].id)
    && forall j | 0 <= j < k :: !TooSmall(f, capabilities, tier, tokens, passed[j].id)
  }

  /** The note of a downshift names that candidate, and nobody if there is none. */
  lemma {:induction false} DownshiftSays(f: Fleet, capabilities: seq<string>, tier: Tier, tokens: int, passed: seq<Candidate>)
    requires forall c | c in passed :: c.id != ""
    ensures forall k | FirstTooSmall(f, capabilities, tier, tokens, passed, k) :: Downshift(f, capabilities, tier, tokens, passed) == passed[k].id
    ensures Downshift(f, capabilities, tier, tokens, passed) != "" <==> exists k :: FirstTooSmall(f, capabilities, tier, tokens, passed, k)
  {
    hide TooSmall;
    if passed != [] {
      var (n, front) := (|passed| - 1, passed[..|passed| - 1]);
      assert passed[n] in passed;
      assert forall c | c in front :: c in passed;
      DownshiftSays(f, capabilities, tier, tokens, front);
      forall k: int
        ensures FirstTooSmall(f, capabilities, tier, tokens, passed, k) <==>
                  if k == n then
                    TooSmall(f, capabilities, tier, tokens, passed[n].id) && Downshift(f, capabilities, tier, tokens, front) == ""
                  else FirstTooSmall(f, capabilities, tier, tokens, front, k)
      {
        FirstOfMore(f, capabilities, tier, tokens, front, passed[n], k);
        assert passed == front + [passed[n]];
      }
      hide FirstTooSmall;
      assert FirstTooSmall(f, capabilities, tier, tokens, passed, n) ==> Downshift(f, capabilities, tier, tokens, passed) == passed[n].id;
    }
  }

  lemma FirstOfMore(f: Fleet, capabilities: seq<string>, tier: Tier, tokens: int, front: seq<Candidate>, c: Candidate, k: int)
    ensures FirstTooSmall(f, capabilities, tier, tokens, front + [c], k) <==>
              if k == |front| then
                TooSmall(f, capabilities, tier, tokens, c.id) && !exists j :: FirstTooSmall(f, capabilities, tier, tokens, front, j)
              else FirstTooSmall(f, capabilities, tier, tokens, front, k)
  {
    hide TooSmall;
    var all := front + [c];
    assert forall j | 0 <= j < |front| :: all[j] == front[j];
    if k == |front| && TooSmall(f, capabilities, tier, tokens, c.id) {
      if j :| 0 <= j < |front| && TooSmall(f, capabilities, tier, tokens, front[j].id) {
        SomeFirst(f, capabilities, tier, tokens, front, j);
      }
    }
  }

  lemma {:induction false} SomeFirst(f: Fleet, capabilities: seq<string>, tier: Tier, tokens: int, passed: seq<Candidate>, k: nat)
    requires k < |passed| && TooSmall(f, capabilities, tier, tokens, passed[k].id)
    ensures exists j :: FirstTooSmall(f, capabilities, tier, tokens, passed, j)
    decreases k
  {
    hide TooSmall;
    if j :| 0 <= j < k && TooSmall(f, capabilities, tier, tokens, passed[j].id) {
      SomeFirst(f, capabilities, tier, tokens, passed, j);
    } else {
      assert FirstTooSmall(f, capabilities, tier, tokens, passed, k);
    }
  }

  /** Only its size: some other prompt, or none to measure, would be let in. */
  lemma TooSmallExactly(f: Fleet, capabilities: seq<string>, tier: Tier, tokens: int, id: string)
    requires Lookup(f.catalog, id).Some? && Builds(f, id, Lookup(f.catalog, id).value)
    ensures TooSmall(f, capabilities, tier, tokens, id) <==>
              Admitted(f, capabilities, tier, 0, id) && !Admitted(f, capabilities, tier, tokens, id)
  {
    hide Passes, Gap, Builds;
  }

  method WalkRole(r: Registry, f: Fleet, capabilities: seq<string>, tier: Tier, tokens: int, order: seq<Candidate>)
    returns (at: Option<nat>, excluded: seq<string>, reasons: seq<string>, gatedOut: string)
    ensures at.Some? ==> First(f, capabilities, tier, tokens, order, at.value)
                         && gatedOut == Downshift(f, capabilities, tier, tokens, order[..at.value])
    ensures at.None? ==> NoneAdmitted(f, capabilities, tier, tokens, order) && Noted(r, f.catalog, tier, false, order, excluded, reasons)
  {
    hide Fits, Gap, Passes, IsMember, Builds, Noted, NoneAdmitted;
    excluded, reasons, gatedOut := [], [], "";
    NotedNothing(r, f.catalog, tier, false);
    for i := 0 to |order|
      invariant forall k | 0 <= k < i :: !Admitted(f, capabilities, tier, tokens, order[k].id)
      invariant Noted(r, f.catalog, tier, false, order[..i], excluded, reasons)
      invariant gatedOut == Downshift(f, capabilities, tier, tokens, order[..i])
    {
      var id := order[i].id;
      assert order[..i + 1][..i] == order[..i] && order[..i + 1] == order[..i] + [order[i]];
      NotedMore(r, f.catalog, tier, false, order[..i], order[i], excluded, reasons);
      var m := Lookup(f.catalog, id);
      if m.None? {
        if IsMember(r, id) {
          reasons := reasons + [id];
        }
        continue;
      }
      if !Passes(m.value, tier) {
        excluded := excluded + [id];
        continue;
      }
      if Gap(m.value, capabilities) || id !in f.routable {
        reasons := reasons + [id];
        continue;
      }
      if !Fits(m.value, tokens) {
        reasons := reasons + [id];
        if gatedOut == "" {
          gatedOut := id;
        }
        continue;
      }
      if !Builds(f, id, m.value) {
        reasons := reasons + [id];
        continue;
      }
      return Some(i), excluded, reasons, gatedOut;
    }
    at := None;
    assert order[..|order|] == order;
    EveryIndex(f, capabilities, tier, tokens, order);
  }

  lemma EveryIndex(f: Fleet, capabilities: seq<string>, tier: Tier, tokens: int, order: seq<Candidate>)
    requires forall k | 0 <= k < |order| :: !Admitted(f, capabilities, tier, tokens, order[k].id)
    ensures NoneAdmitted(f, capabilities, tier, tokens, order)
  {
    hide Admitted;
  }

  /** The same candidates, in whatever order. */
  ghost predicate SameMembers(a: seq<Candidate>, b: seq<Candidate>) {
    forall c :: c in a <==> c in b
  }

  lemma ExpandedSame(cat: Catalog, a: seq<Candidate>, b: seq<Candidate>)
    requires multiset(a) == multiset(b)
    ensures SameMembers(Expanded(cat, a), Expanded(cat, b))
  {
    forall c
      ensures c in Expanded(cat, a) <==> c in Expanded(cat, b)
    {
      ExpandedMembers(cat, a, c);
      ExpandedMembers(cat, b, c);
      assert forall x :: x in a <==> x in multiset(a);
      assert forall x :: x in b <==> x in multiset(b);
    }
  }

  /** Policy refuses a role exactly if some candidate there is falls short of the tier, all there are do, and none of the
      rest is a member some provider may yet list. */
  lemma RoleRefusedExactly(r: Registry, cat: Catalog, tier: Tier, order: seq<Candidate>)
    ensures PolicyBlocked(r, cat, tier, false, order) <==>
              && (exists c :: c in order && Lookup(cat, c.id).Some?)
              && (forall c | c in order && Lookup(cat, c.id).Some? :: !Passes(Lookup(cat, c.id).value, tier))
              && (forall c | c in order && Lookup(cat, c.id).None? ::
                    forall i: nat | i < |r.discovery| :: r.discovery[i].prefix == "" || !(r.discovery[i].prefix <= c.id) || c.id == r.discovery[i].prefix)
  {
    hide Passes;
    forall c | c in order && Lookup(cat, c.id).None?
      ensures Pending(r, cat, tier, false, c.id) <==>
                exists i: nat :: i < |r.discovery| && r.discovery[i].prefix != "" && r.discovery[i].prefix <= c.id && c.id != r.discovery[i].prefix
    {
      if i: nat :| i < |r.discovery| && r.discovery[i].prefix != "" && r.discovery[i].prefix <= c.id && c.id != r.discovery[i].prefix {
        assert Under(r, i, c.id);
      }
    }
    hide Under, IsMember;
    if PolicyBlocked(r, cat, tier, false, order) {
      forall c | c in order
        ensures !Pending(r, cat, tier, false, c.id)
      {
      }
    }
  }

  /** Neither the verdict of policy nor whether anything is admitted depends on the order. */
  lemma OrderDoesNotMatter(r: Registry, f: Fleet, capabilities: seq<string>, tier: Tier, tokens: int, a: seq<Candidate>, b: seq<Candidate>)
    requires SameMembers(a, b)
    ensures PolicyBlocked(r, f.catalog, tier, false, a) <==> PolicyBlocked(r, f.catalog, tier, false, b)
    ensures NoneAdmitted(f, capabilities, tier, tokens, a) <==> NoneAdmitted(f, capabilities, tier, tokens, b)
  {
    hide Admitted, Excluded, Pending;
  }

  /** Everything a role can ever be routed to under this catalog. */
  function Reach(cat: Catalog, role: Role): seq<Candidate> {
    Expanded(cat, RoleList(role))
  }

  /** The ids a list of reasons names are those of the candidates this can be said of. */
  ghost predicate Lists(ids: seq<string>, order: seq<Candidate>, r: Registry, cat: Catalog, tier: Tier, chain: bool, policyOnly: bool) {
    forall id :: id in ids <==>
      exists c :: c in order && c.id == id && (Excluded(cat, tier, id) || (!policyOnly && Pending(r, cat, tier, chain, id)))
  }

  ghost predicate IsRoleAnswer(r: Registry, f: Fleet, name: string, role: Role, tier: Tier, tokens: int, res: Resolution,
                               order: seq<Candidate>, at: Option<nat>) {
    var reach := Reach(f.catalog, role);
    && SameMembers(order, reach) && (!role.balance.ByPressure? ==> order == reach)
    && (res.Served? <==> at.Some?)
    && (at.Some? ==> First(f, role.capabilities, tier, tokens, order, at.value) && IsTarget(f, name, tier, tokens, order, at.value, role, res.target))
    && (res.Served? <==> !NoneAdmitted(f, role.capabilities, tier, tokens, reach))
    && (res.PolicyRefused? <==> PolicyBlocked(r, f.catalog, tier, false, reach))
    && (res.PolicyRefused? ==> res.subject == name && res.tier == tier && Lists(res.excluded, order, r, f.catalog, tier, false, true))
    && (res.Unavailable? ==> res.subject == name && Lists(res.reasons, order, r, f.catalog, tier, false, false))
  }

  /** Binds a role. The seat is the first admitted one of the walked order, which is the declared order
      with chains in place, or a reordering of the same candidates when the role balances. A policy
      refusal depends on the declared lists, the catalog and the tier alone: not on what is up, on the
      prompt's size or on the load. */
  method ResolveRole(r: Registry, roles: map<string, Role>, f: Fleet, name: string, caller: Tier, tokens: int,
                     tracker: PressureTracker, now: int)
    returns (res: Resolution, ghost order: seq<Candidate>, ghost at: Option<nat>)
    ensures res.Unknown? <==> name !in roles
    ensures name in roles ==>
              var tier := Stricter(RoleTier(roles[name].locality), caller);
              IsRoleAnswer(r, f, name, roles[name], tier, tokens, res, order, at)
  {
    order, at := [], None;
    if name !in roles {
      return Unknown, [], None;
    }
    hide Admitted, Excluded, Pending, RoleList, PolicyBlocked, NoneAdmitted, Noted, Stricter, Expanded, SameMembers, Lists;
    var role := roles[name];
    var tier := EffectiveTier(role.locality, caller);
    var walked := OrderFor(f, role, tracker, now);
    order := walked;
    OrderDoesNotMatter(r, f, role.capabilities, tier, tokens, order, Reach(f.catalog, role));
    var found, excluded, reasons, gatedOut := WalkRole(r, f, role.capabilities, tier, tokens, walked);
    at := found;
    if found.Some? {
      var c := walked[found.value];
      AdmittedKnown(f, role.capabilities, tier, tokens, c.id);
      res := Served(Target(c.id, Lookup(f.catalog, c.id).value, "", name, c.chain, c.overflow, walked[found.value + 1..], tokens, tier, gatedOut));
      FirstServes(r, f, role.capabilities, tier, tokens, order, found.value);
      return;
    }
    NotedBlocked(r, f.catalog, tier, false, walked, excluded, reasons);
    NotedLists(r, f.catalog, tier, false, walked, excluded, reasons);
    res := if excluded != [] && reasons == [] then PolicyRefused(name, tier, excluded) else Unavailable(name, reasons + excluded);
  }

  lemma NotedLists(r: Registry, cat: Catalog, tier: Tier, chain: bool, order: seq<Candidate>, excluded: seq<string>, reasons: seq<string>)
    requires Noted(r, cat, tier, chain, order, excluded, reasons)
    ensures Lists(excluded, order, r, cat, tier, chain, true)
    ensures Lists(reasons + excluded, order, r, cat, tier, chain, false)
  {
    hide Excluded, Pending;
  }

  method OrderFor(f: Fleet, role: Role, tracker: PressureTracker, now: int) returns (order: seq<Candidate>)
    ensures SameMembers(order, Reach(f.catalog, role))
    ensures !role.balance.ByPressure? ==> order == Reach(f.catalog, role)
  {
    hide Expanded, RoleList;
    var base := RoleOrder(role);
    if role.balance.ByPressure? {
      var sorted, pr, rank, load, perm, moved := OrderByPressure(base, role, f.routable, tracker, now);
      base := sorted;
    }
    ExpandedSame(f.catalog, base, RoleList(role));
    order := ExpandChains(f.catalog, base);
  }

  ghost predicate IsTarget(f: Fleet, name: string, tier: Tier, tokens: int, order: seq<Candidate>, at: nat, role: Role, t: Target)
    requires at < |order|
  {
    var c := order[at];
    && Lookup(f.catalog, c.id).Some?
    && t == Target(c.id, Lookup(f.catalog, c.id).value, "", name, c.chain, c.overflow, order[at + 1..], tokens, tier,
                   Downshift(f, role.capabilities, tier, tokens, order[..at]))
  }

  lemma AdmittedKnown(f: Fleet, capabilities: seq<string>, tier: Tier, tokens: int, id: string)
    requires Admitted(f, capabilities, tier, tokens, id)
    ensures Lookup(f.catalog, id).Some? && Passes(Lookup(f.catalog, id).value, tier)
  {
  }

  lemma FirstServes(r: Registry, f: Fleet, capabilities: seq<string>, tier: Tier, tokens: int, order: seq<Candidate>, at: nat)
    requires First(f, capabilities, tier, tokens, order, at)
    ensures !NoneAdmitted(f, capabilities, tier, tokens, order)
    ensures !PolicyBlocked(r, f.catalog, tier, false, order)
  {
    assert order[at] in order;
    AdmittedKnown(f, capabilities, tier, tokens, order[at].id);
    assert Pending(r, f.catalog, tier, false, order[at].id);
    hide Passes, Admitted;
  }

  // ----- chains -------------------------------------------------------------------------

  /** A chain's own order: itself first if it has a backend, then its fallbacks. */
  function ChainOrder(id: string, m: ModelDef): seq<Candidate> {
    (if IsVirtual(m) then [] else [Candidate(id, false, id)]) + Links(m.fallbacks, Candidate(id, false, id))
  }

  /** Whichever way a chain is reached, its providers come in the one order. */
  lemma ChainOrderSays(id: string, m: ModelDef)
    requires m.fallbacks != []
    ensures Providers(ChainOrder(id, m), m, id, false)
  {
    LinksSay(m.fallbacks, Candidate(id, false, id));
  }

  /** The first walk of a chain sees the mode's own entries only, and gates neither size nor capability. */
  function ChainView(f: Fleet): Fleet {
    f.(catalog := Catalog(f.catalog.active, map[]))
  }

  method ListChain(id: string, m: ModelDef) returns (order: seq<Candidate>)
    ensures order == ChainOrder(id, m)
  {
    order := if IsVirtual(m) then [] else [Candidate(id, false, id)];
    ghost var own := order;
    var c := Candidate(id, false, id);
    for k := 0 to |m.fallbacks|
      invariant order == own + Links(m.fallbacks[..k], c)
    {
      assert m.fallbacks[..k + 1][..k] == m.fallbacks[..k];
      order := order + [Candidate(m.fallbacks[k], false, id)];
    }
    assert m.fallbacks[..|m.fallbacks|] == m.fallbacks;
  }

  ghost predicate IsChainAnswer(r: Registry, f: Fleet, id: string, m: ModelDef, caller: Tier, res: Resolution, at: Option<nat>) {
    var (view, order) := (ChainView(f), ChainOrder(id, m));
    && (res.Served? <==> at.Some?) && !res.Unknown?
    && (at.Some? ==>
          && First(view, [], caller, 0, order, at.value)
          && var c := order[at.value];
             c.id in f.catalog.active
             && res.target == Target(c.id, f.catalog.active[c.id], "", "", c.chain, false, order[at.value + 1..], 0, caller, ""))
    && (at.None? ==> NoneAdmitted(view, [], caller, 0, order))
    && (res.PolicyRefused? <==> PolicyBlocked(r, view.catalog, caller, true, order))
    && (res.PolicyRefused? ==> res.subject == id && res.tier == caller && Lists(res.excluded, order, r, view.catalog, caller, true, true))
    && (res.Unavailable? ==> res.subject == id && Lists(res.reasons, order, r, view.catalog, caller, true, false))
  }

  /** Binds a chain to its first admitted provider. */
  method ResolveChain(r: Registry, f: Fleet, id: string, m: ModelDef, caller: Tier)
    returns (res: Resolution, ghost at: Option<nat>)
    ensures IsChainAnswer(r, f, id, m, caller, res, at)
    ensures res.PolicyRefused? <==> PolicyBlocked(r, ChainView(f).catalog, caller, true, ChainOrder(id, m))
    ensures res.Served? ==> res.target.id in f.catalog.active
  {
    hide Passes, ChainOrder, PolicyBlocked, Noted, Admitted, First, NoneAdmitted, Lists;
    var order := ListChain(id, m);
    var found, excluded, reasons := WalkChain(r, f, caller, order);
    at := found;
    if found.Some? {
      ChainServes(r, ChainView(f), caller, order, found.value);
      var c := order[found.value];
      ChainAdmits(f, caller, c.id);
      res := Served(Target(c.id, f.catalog.active[c.id], "", "", c.chain, false, order[found.value + 1..], 0, caller, ""));
      return;
    }
    NotedBlocked(r, ChainView(f).catalog, caller, true, order, excluded, reasons);
    NotedLists(r, ChainView(f).catalog, caller, true, order, excluded, reasons);
    res := if excluded != [] && reasons == [] then PolicyRefused(id, caller, excluded) else Unavailable(id, reasons + excluded);
  }

  /** A chain is refused on policy exactly if policy rules every one of its providers out; one the mode does
      not have at all turns the refusal into an outage. */
  lemma ChainRefusedExactly(r: Registry, cat: Catalog, tier: Tier, order: seq<Candidate>)
    ensures PolicyBlocked(r, cat, tier, true, order) <==> order != [] && forall c | c in order :: Excluded(cat, tier, c.id)
  {
    hide Passes;
    if order != [] {
      assert order[0] in order;
    }
    forall c | c in order
      ensures !Pending(r, cat, tier, true, c.id) <==> Excluded(cat, tier, c.id)
    {
    }
  }

  method WalkChain(r: Registry, f: Fleet, caller: Tier, order: seq<Candidate>)
    returns (at: Option<nat>, excluded: seq<string>, reasons: seq<string>)
    ensures at.Some? ==> First(ChainView(f), [], caller, 0, order, at.value)
    ensures at.None? ==> NoneAdmitted(ChainView(f), [], caller, 0, order)
                         && Noted(r, ChainView(f).catalog, caller, true, order, excluded, reasons)
  {
    hide Passes, Builds, IsMember, Admitted, Noted, NoneAdmitted;
    ghost var view := ChainView(f);
    excluded, reasons := [], [];
    NotedNothing(r, view.catalog, caller, true);
    for i := 0 to |order|
      invariant forall k | 0 <= k < i :: !Admitted(view, [], caller, 0, order[k].id)
      invariant Noted(r, view.catalog, caller, true, order[..i], excluded, reasons)
    {
      var c := order[i].id;
      assert order[..i + 1] == order[..i] + [order[i]];
      NotedMore(r, view.catalog, caller, true, order[..i], order[i], excluded, reasons);
      ChainAdmits(f, caller, c);
      if c !in f.catalog.active {
        reasons := reasons + [c];
        continue;
      }
      var cm := f.catalog.active[c];
      if !Passes(cm, caller) {
        excluded := excluded + [c];
        continue;
      }
      if c !in f.routable || !Builds(f, c, cm) {
        reasons := reasons + [c];
        continue;
      }
      return Some(i), excluded, reasons;
    }
    at := None;
    assert order[..|order|] == order;
    EveryIndex(view, [], caller, 0, order);
  }

  lemma ChainAdmits(f: Fleet, tier: Tier, id: string)
    ensures Admitted(ChainView(f), [], tier, 0, id) <==>
              id in f.catalog.active && Passes(f.catalog.active[id], tier) && id in f.routable && Builds(f, id, f.catalog.active[id])
  {
  }

  lemma ChainServes(r: Registry, f: Fleet, tier: Tier, order: seq<Candidate>, at: nat)
    requires First(f, [], tier, 0, order, at)
    ensures at < |order| && Admitted(f, [], tier, 0, order[at].id)
    ensures !PolicyBlocked(r, f.catalog, tier, true, order)
  {
    assert order[at] in order;
    assert Pending(r, f.catalog, tier, true, order[at].id);
    hide Passes, Admitted;
  }

  // ----- the walk on from a failed seat -------------------------------------------------

  function RoleCapabilities(roles: map<string, Role>, name: string): seq<string> {
    if name in roles then roles[name].capabilities else []
  }

  /** The seat to try next: the first admitted candidate of the untried tail, held to the tier and the
      size of the first walk. */
  function NextOf(f: Fleet, capabilities: seq<string>, t: Target): Option<Target>
    decreases |t.remaining|
  {
    if t.remaining == [] then None
    else
      var c := t.remaining[0];
      var rest := t.(remaining := t.remaining[1..]);
      if Admitted(f, capabilities, t.tier, t.tokens, c.id) then
        Some(rest.(id := c.id, model := Lookup(f.catalog, c.id).value, alias := "", chain := c.chain, overflowed := c.overflow))
      else NextOf(f, capabilities, rest)
  }

  method NextRoleCandidate(f: Fleet, roles: map<string, Role>, t: Target) returns (next: Option<Target>)
    ensures next == NextOf(f, RoleCapabilities(roles, t.role), t)
  {
    hide Fits, Gap, Passes, Builds;
    var capabilities := RoleCapabilities(roles, t.role);
    for i := 0 to |t.remaining|
      invariant NextOf(f, capabilities, t) == NextOf(f, capabilities, t.(remaining := t.remaining[i..]))
    {
      var c := t.remaining[i];
      ghost var at := t.(remaining := t.remaining[i..]);
      assert at.remaining[0] == c && at.remaining[1..] == t.remaining[i + 1..];
      var m := Lookup(f.catalog, c.id);
      if m.None? || c.id !in f.routable || Gap(m.value, capabilities) {
        continue;
      }
      if !Passes(m.value, t.tier) || !Fits(m.value, t.tokens) || !Builds(f, c.id, m.value) {
        continue;
      }
      return Some(t.(id := c.id, model := m.value, alias := "", chain := c.chain, overflowed := c.overflow, remaining := t.remaining[i + 1..]));
    }
    next := None;
  }

  lemma {:induction false} NextExists(f: Fleet, capabilities: seq<string>, t: Target)
    ensures NextOf(f, capabilities, t).None? <==> NoneAdmitted(f, capabilities, t.tier, t.tokens, t.remaining)
    decreases |t.remaining|
  {
    if t.remaining != [] {
      NextExists(f, capabilities, t.(remaining := t.remaining[1..]));
      AdmittedIsKnown(f, capabilities, t.tier, t.tokens);
      hide Admitted;
      assert t.remaining == [t.remaining[0]] + t.remaining[1..];
    }
  }

  /** Entry i of the tail, and what is left of it. */
  ghost predicate Takes(t: Target, next: Target, i: nat) {
    && i < |t.remaining| && t.remaining[i] == Candidate(next.id, next.overflowed, next.chain)
    && next.remaining == t.remaining[i + 1..]
    && next == t.(id := next.id, model := next.model, alias := "", chain := next.chain, overflowed := next.overflowed, remaining := next.remaining)
  }

  /** The next seat is the first admitted one of the tail, keeping the tier, the size and the role. */
  lemma {:induction false} NextIsFirst(f: Fleet, capabilities: seq<string>, t: Target)
    requires NextOf(f, capabilities, t).Some?
    ensures var next := NextOf(f, capabilities, t).value;
            && |next.remaining| < |t.remaining|
            && var i := |t.remaining| - |next.remaining| - 1;
               && Takes(t, next, i) && First(f, capabilities, t.tier, t.tokens, t.remaining, i)
               && Lookup(f.catalog, next.id) == Some(next.model)
    decreases |t.remaining|
  {
    AdmittedIsKnown(f, capabilities, t.tier, t.tokens);
    hide Admitted;
    var rest := t.(remaining := t.remaining[1..]);
    if !Admitted(f, capabilities, t.tier, t.tokens, t.remaining[0].id) {
      NextIsFirst(f, capabilities, rest);
      var next := NextOf(f, capabilities, t).value;
      TakesLater(f, capabilities, t, next, |rest.remaining| - |next.remaining| - 1);
    }
  }

  lemma TakesLater(f: Fleet, capabilities: seq<string>, t: Target, next: Target, i: nat)
    requires t.remaining != [] && !Admitted(f, capabilities, t.tier, t.tokens, t.remaining[0].id)
    requires var rest := t.(remaining := t.remaining[1..]);
             Takes(rest, next, i) && First(f, capabilities, t.tier, t.tokens, rest.remaining, i)
    ensures Takes(t, next, i + 1) && First(f, capabilities, t.tier, t.tokens, t.remaining, i + 1)
  {
    hide Admitted;
    assert forall k | 0 < k <= i + 1 :: t.remaining[k] == t.remaining[1..][k - 1];
  }

  lemma AdmittedIsKnown(f: Fleet, capabilities: seq<string>, tier: Tier, tokens: int)
    ensures forall id | Admitted(f, capabilities, tier, tokens, id) :: Lookup(f.catalog, id).Some?
  {
  }

  // ----- tightening ---------------------------------------------------------------------

  /** Tightening the tier only takes seats away. */
  lemma TighterAdmitsLess(f: Fleet, capabilities: seq<string>, loose: Tier, tight: Tier, tokens: int, id: string)
    requires Strictness(loose) <= Strictness(tight)
    ensures Admitted(f, capabilities, tight, tokens, id) ==> Admitted(f, capabilities, loose, tokens, id)
  {
  }

  /** A policy refusal under a looser tier is one under every tighter tier, whatever is up by then. */
  lemma TighterStaysRefused(r: Registry, cat: Catalog, loose: Tier, tight: Tier, chain: bool, order: seq<Candidate>)
    requires Strictness(loose) <= Strictness(tight) && PolicyBlocked(r, cat, loose, chain, order)
    ensures PolicyBlocked(r, cat, tight, chain, order)
  {
    var c :| c in order && Excluded(cat, loose, c.id);
    assert Excluded(cat, tight, c.id);
    forall d | d in order
      ensures !Pending(r, cat, tight, chain, d.id)
    {
      assert !Pending(r, cat, loose, chain, d.id);
    }
  }

  /** Nothing a policy-refused request could ever be admitted to: no change of what is up helps. */
  lemma RefusalIsPermanent(r: Registry, cat: Catalog, tier: Tier, chain: bool, order: seq<Candidate>, f: Fleet,
                           capabilities: seq<string>, tokens: int)
    requires PolicyBlocked(r, cat, tier, chain, order) && f.catalog == cat
    ensures NoneAdmitted(f, capabilities, tier, tokens, order)
  {
    forall c | c in order
      ensures !Admitted(f, capabilities, tier, tokens, c.id)
    {
      assert !Pending(r, cat, tier, chain, c.id);
    }
  }

  // ----- what a name means --------------------------------------------------------------

  const OPENAI := "openai/"

  /** The name identifies this entry: its key, or its repository with or without the variant. */
  predicate IsConcrete(id: string, m: ModelDef, want: string) {
    id == want || BackendName(m.hfRepo) == want || m.hfRepo == want
  }

  predicate HasAlias(m: ModelDef, want: string) {
    want in m.aliases
  }

  /** Some active entry answers to the name in this way. */
  predicate SomeActive(cat: Catalog, fits: (string, ModelDef) -> bool) {
    exists id :: id in cat.active && fits(id, cat.active[id])
  }

  method FindActive(cat: Catalog, fits: (string, ModelDef) -> bool) returns (id: Option<string>)
    ensures id.None? <==> !SomeActive(cat, fits)
    ensures id.Some? ==> id.value in cat.active && fits(id.value, cat.active[id.value])
  {
    var todo := cat.active.Keys;
    while todo != {}
      invariant todo <= cat.active.Keys
      invariant forall x | x in cat.active && x !in todo :: !fits(x, cat.active[x])
      decreases todo
    {
      var x := Sorting.Pick(todo);
      if fits(x, cat.active[x]) {
        return Some(x);
      }
      todo := todo - {x};
    }
    return None;
  }

  /** The name in the order of precedence: the key of an active entry, its repository, a discovered entry
      by its full id. */
  method LookupConcrete(cat: Catalog, want: string) returns (id: Option<string>)
    ensures want in cat.active ==> id == Some(want)
    ensures id.Some? <==> SomeActive(cat, (x, m) => IsConcrete(x, m, want)) || want in cat.discovered
    ensures id.Some? ==> Lookup(cat, id.value).Some?
    ensures id.Some? && id.value !in cat.active ==> id.value == want && !SomeActive(cat, (x, m) => IsConcrete(x, m, want))
    ensures id.Some? && id.value in cat.active ==> IsConcrete(id.value, cat.active[id.value], want)
  {
    if want in cat.active {
      assert IsConcrete(want, cat.active[want], want);
      return Some(want);
    }
    id := FindActive(cat, (x, m) => IsConcrete(x, m, want));
    if id.None? && want in cat.discovered {
      id := Some(want);
    }
  }

  /** A model named by its key, its repository or its alias is that model and no other: the target has no
      role, no chain, no tier of a walk, and nobody to fail over to. */
  function NamedTarget(cat: Catalog, id: string, alias: string): Target
    requires Lookup(cat, id).Some?
  {
    Target(id, Lookup(cat, id).value, alias, "", "", false, [], 0, TierNone, "")
  }

  /** The endpoint overrules the alias the caller used, and the alias the entry. */
  predicate ViaToolProxy(t: Target, forceDirect: bool) {
    var overrides := t.model.defaults.overrides;
    && !t.model.external && !forceDirect
    && if t.alias != "" && t.alias in overrides && overrides[t.alias].toolProxy.Some? then overrides[t.alias].toolProxy.value
       else t.model.toolProxy
  }

  /** How a name was understood; at is where the egress was split off. */
  datatype Reading = Concretely(id: string) | AsRole | AsAlias(id: string) | WithEgress(at: nat) | NotAtAll

  predicate IsName(cat: Catalog, want: string) {
    SomeActive(cat, (x, m) => IsConcrete(x, m, want)) || want in cat.discovered
  }

  predicate IsAlias(cat: Catalog, want: string) {
    SomeActive(cat, (x, m) => HasAlias(m, want))
  }

  /** A concrete name beats a role, and a role beats an alias. */
  ghost predicate Reads(roles: map<string, Role>, cat: Catalog, want: string, how: Reading) {
    match how
    case Concretely(id) =>
      Lookup(cat, id).Some? && (if id in cat.active then IsConcrete(id, cat.active[id], want) else id == want) && IsName(cat, want)
    case AsRole => !IsName(cat, want) && want in roles
    case AsAlias(id) => !IsName(cat, want) && want !in roles && id in cat.active && HasAlias(cat.active[id], want)
    case WithEgress(at) => !IsName(cat, want) && want !in roles && !IsAlias(cat, want) && SplitsAt(want, at)
    case NotAtAll => want == "" || (!IsName(cat, want) && want !in roles && !IsAlias(cat, want))
  }

  /** How a name is read, in the terms of the entries: concretely exactly if it is an active entry's key, repository or
      repository without the variant, or a discovered id; else as a role exactly if there is one of that name; else as
      an alias exactly if an active entry lists it. */
  lemma ReadsExactly(roles: map<string, Role>, cat: Catalog, want: string, how: Reading)
    requires Reads(roles, cat, want, how) && want != ""
    ensures var concrete := want in cat.active || want in cat.discovered ||
                            exists id :: id in cat.active && (BackendName(cat.active[id].hfRepo) == want || cat.active[id].hfRepo == want);
            var alias := exists id :: id in cat.active && want in cat.active[id].aliases;
            && (how.Concretely? <==> concrete)
            && (how.AsRole? <==> !concrete && want in roles)
            && (how.AsAlias? <==> !concrete && want !in roles && alias)
            && (how.AsAlias? ==> how.id in cat.active && want in cat.active[how.id].aliases)
  {
    if want in cat.active {
      assert IsConcrete(want, cat.active[want], want);
    }
    if id :| id in cat.active && want in cat.active[id].aliases {
      assert HasAlias(cat.active[id], want);
    }
  }

  /** The name is a base, a hyphen and an egress. */
  predicate SplitsAt(want: string, i: nat) {
    0 < i < |want| && want[i] == '-'
  }

  /** An entry without fallbacks is answered by itself if it can be placed, and nothing else can ever take
      the request; one with fallbacks by its chain. */
  ghost predicate IsEntryAnswer(r: Registry, f: Fleet, id: string, alias: string, caller: Tier, res: Resolution)
    requires Lookup(f.catalog, id).Some?
  {
    var m := Lookup(f.catalog, id).value;
    if m.fallbacks == [] then res == if Builds(f, id, m) then Served(NamedTarget(f.catalog, id, alias)) else Unknown
    else exists at :: IsChainAnswer(r, f, id, m, caller, res, at)
  }

  /** Naming an entry without fallbacks gives that entry under the alias used, with no role, no chain, no tier of a walk
      and nobody to fail over to; and it gives it exactly if the entry has an address. */
  lemma NamedAnswerSays(r: Registry, f: Fleet, id: string, alias: string, caller: Tier, res: Resolution)
    requires Lookup(f.catalog, id).Some? && Lookup(f.catalog, id).value.fallbacks == [] && IsEntryAnswer(r, f, id, alias, caller, res)
    ensures var m := if id in f.catalog.active then f.catalog.active[id] else f.catalog.discovered[id];
            && (res.Served? <==> m.apiBase != "" || id in f.placed) && (res.Served? || res.Unknown?)
            && (res.Served? ==>
                  var t := res.target;
                  t.id == id && t.model == m && t.alias == alias && t.role == "" && t.chain == "" && t.remaining == [] && t.tier.TierNone?)
  {
  }

  /** The base half of a name is answered like a name, except that an entry stands for itself alone even if
      it has fallbacks. */
  ghost predicate IsBaseAnswer(r: Registry, roles: map<string, Role>, f: Fleet, base: string, caller: Tier, tokens: int, how: Reading, res: Resolution) {
    && Reads(roles, f.catalog, base, how)
    && match how
       case Concretely(id) => Lookup(f.catalog, id).Some? && res == Alone(f, id, "")
       case AsRole =>
         base in roles &&
         exists order, at :: IsRoleAnswer(r, f, base, roles[base], Stricter(RoleTier(roles[base].locality), caller), tokens, res, order, at)
       case AsAlias(id) => Lookup(f.catalog, id).Some? && res == Alone(f, id, base)
       case WithEgress(_) => false
       case NotAtAll => res.Unknown?
  }

  function Alone(f: Fleet, id: string, alias: string): Resolution
    requires Lookup(f.catalog, id).Some?
  {
    if Builds(f, id, Lookup(f.catalog, id).value) then Served(NamedTarget(f.catalog, id, alias)) else Unknown
  }

  /** An egress means something only to a seat behind the tool proxy. */
  predicate TakesEgress(res: Resolution) {
    res.Served? && ViaToolProxy(res.target, false)
  }

  /** Cut here, the name was tried and its base does not take an egress. */
  ghost predicate Declined(r: Registry, roles: map<string, Role>, f: Fleet, want: string, caller: Tier, tokens: int, i: nat)
    requires i <= |want|
  {
    exists how, res :: IsBaseAnswer(r, roles, f, want[..i], caller, tokens, how, res) && !TakesEgress(res)
  }

  ghost predicate TakenAt(r: Registry, roles: map<string, Role>, f: Fleet, want: string, caller: Tier, tokens: int, i: nat, res: Resolution)
    requires i <= |want|
  {
    exists how :: IsBaseAnswer(r, roles, f, want[..i], caller, tokens, how, res) && TakesEgress(res)
  }

  /** Every cut from here on was declined. */
  ghost predicate DeclinedFrom(r: Registry, roles: map<string, Role>, f: Fleet, want: string, caller: Tier, tokens: int, i: int) {
    forall j: nat | i <= j && SplitsAt(want, j) :: Declined(r, roles, f, want, caller, tokens, j)
  }

  /** What the reading of a name obliges the answer to be. */
  ghost predicate Fulfils(r: Registry, roles: map<string, Role>, f: Fleet, want: string, forceDirect: bool, caller: Tier, tokens: int,
                          how: Reading, res: Resolution) {
    match how
    case Concretely(id) => Lookup(f.catalog, id).Some? && IsEntryAnswer(r, f, id, "", caller, res)
    case AsRole =>
      want in roles &&
      exists order, at :: IsRoleAnswer(r, f, want, roles[want], Stricter(RoleTier(roles[want].locality), caller), tokens, res, order, at)
    case AsAlias(id) => Lookup(f.catalog, id).Some? && IsEntryAnswer(r, f, id, want, caller, res)
    case WithEgress(at) =>
      && !forceDirect && at <= |want| && TakenAt(r, roles, f, want, caller, tokens, at, res)
      && DeclinedFrom(r, roles, f, want, caller, tokens, at + 1)
    case NotAtAll => res.Unknown? && (want == "" || forceDirect || DeclinedFrom(r, roles, f, want, caller, tokens, 0))
  }

  /** An entry by its name, its chain, a role, an alias; and where the endpoint allows it, the longest base
      behind the tool proxy with the rest of the name as its egress. */
  method ResolveModel(r: Registry, roles: map<string, Role>, f: Fleet, name: string, forceDirect: bool, caller: Tier, tokens: int,
                      tracker: PressureTracker, now: int)
    returns (res: Resolution, how: Reading)
    ensures var want := if OPENAI <= name then name[|OPENAI|..] else name;
            if name == "" then res.Unknown? && how.NotAtAll?
            else Reads(roles, f.catalog, want, how) && Fulfils(r, roles, f, want, forceDirect, caller, tokens, how, res)
  {
    hide IsRoleAnswer, IsChainAnswer, SomeActive, Stricter, DeclinedFrom, TakenAt;
    if name == "" {
      return Unknown, NotAtAll;
    }
    var want := if OPENAI <= name then name[|OPENAI|..] else name;
    var id := LookupConcrete(f.catalog, want);
    if id.Some? {
      how := Concretely(id.value);
      res := Bind(r, f, id.value, "", caller);
      return;
    }
    if want in roles {
      how := AsRole;
      ghost var order, at;
      res, order, at := ResolveRole(r, roles, f, want, caller, tokens, tracker, now);
      return;
    }
    id := FindActive(f.catalog, (x, m) => HasAlias(m, want));
    if id.Some? {
      how := AsAlias(id.value);
      res := Bind(r, f, id.value, want, caller);
      return;
    }
    if !forceDirect {
      res, how := ResolveEgress(r, roles, f, want, caller, tokens, tracker, now);
      return;
    }
    res, how := Unknown, NotAtAll;
  }

  /** Tries the name cut at its hyphens, from the last one on. */
  method ResolveEgress(r: Registry, roles: map<string, Role>, f: Fleet, want: string, caller: Tier, tokens: int,
                       tracker: PressureTracker, now: int)
    returns (res: Resolution, how: Reading)
    ensures how.WithEgress? || how.NotAtAll?
    ensures how.WithEgress? ==>
              && SplitsAt(want, how.at) && TakenAt(r, roles, f, want, caller, tokens, how.at, res)
              && DeclinedFrom(r, roles, f, want, caller, tokens, how.at + 1)
    ensures how.NotAtAll? ==> res.Unknown? && DeclinedFrom(r, roles, f, want, caller, tokens, 0)
  {
    hide IsBaseAnswer, TakesEgress;
    var i := |want|;
    while i > 0
      invariant 0 <= i <= |want| && DeclinedFrom(r, roles, f, want, caller, tokens, i)
    {
      i := i - 1;
      if !SplitsAt(want, i) {
        continue;
      }
      var base;
      res, base := ResolveBase(r, roles, f, want[..i], caller, tokens, tracker, now);
      if TakesEgress(res) {
        return res, WithEgress(i);
      }
      assert Declined(r, roles, f, want, caller, tokens, i);
    }
    res, how := Unknown, NotAtAll;
  }

  method ResolveBase(r: Registry, roles: map<string, Role>, f: Fleet, base: string, caller: Tier, tokens: int,
                     tracker: PressureTracker, now: int)
    returns (res: Resolution, how: Reading)
    ensures IsBaseAnswer(r, roles, f, base, caller, tokens, how, res)
  {
    hide IsRoleAnswer, SomeActive, Stricter;
    var id := LookupConcrete(f.catalog, base);
    if id.Some? {
      return Alone(f, id.value, ""), Concretely(id.value);
    }
    if base in roles {
      how := AsRole;
      ghost var order, at;
      res, order, at := ResolveRole(r, roles, f, base, caller, tokens, tracker, now);
      return;
    }
    id := FindActive(f.catalog, (x, m) => HasAlias(m, base));
    if id.Some? {
      return Alone(f, id.value, base), AsAlias(id.value);
    }
    return Unknown, NotAtAll;
  }

  /** The entry itself, or the chain it stands for. */
  method Bind(r: Registry, f: Fleet, id: string, alias: string, caller: Tier) returns (res: Resolution)
    requires Lookup(f.catalog, id).Some?
    ensures IsEntryAnswer(r, f, id, alias, caller, res)
  {
    hide IsChainAnswer;
    var m := Lookup(f.catalog, id).value;
    if m.fallbacks != [] {
      ghost var at;
      res, at := ResolveChain(r, f, id, m, caller);
    } else if Builds(f, id, m) {
      res := Served(NamedTarget(f.catalog, id, alias));
    } else {
      res := Unknown;
    }
  }

  /** Every answer of a chain carries the chain's label, so it fails over like one. */
  lemma ChainLabels(id: string, m: ModelDef, k: nat)
    requires k < |ChainOrder(id, m)|
    ensures ChainOrder(id, m)[k].chain == id
  {
    var order := ChainOrder(id, m);
    LinksMembers(m.fallbacks, Candidate(id, false, id), order[k]);
    assert order[k] in order;
  }
}
