/** Whole requests, put together from resolution, validation, the tracker and the retry loop: what every run
    of a role request keeps, and the small fleets on which the documented promises fail. */
module WholeRequests {
  import opened RequestDefaults
  import opened Registries
  import opened Candidates
  import opened Resolution
  import opened Failover
  import Seats
  import Soundness
  import Validation

  // ----- the class a role requires ------------------------------------------------------

  /** Discovery may adopt and drop entries while the request is under way, as far as it ever may. */
  ghost predicate AllPossible(r: Registry, mode: string, moments: seq<Moment>) {
    forall n: nat | n < |moments| :: Soundness.Possible(r, mode, moments[n].after.catalog)
  }

  lemma NextKeepsClass(r: Registry, mode: string, name: string, cat: Catalog, order: seq<Candidate>, t: Target, f: Fleet)
    requires Soundness.Validated(r) && name in RolesSeen(r, mode) && RolesSeen(r, mode)[name].apiClass != ""
    requires Soundness.Possible(r, mode, cat) && SameMembers(order, Reach(cat, RolesSeen(r, mode)[name]))
    requires Soundness.Possible(r, mode, f.catalog)
    requires StandsIn(order, t) && Next(f, RolesSeen(r, mode), t).Some?
    ensures var next := Next(f, RolesSeen(r, mode), t).value;
            StandsIn(order, next) && next.model.apiClass == RolesSeen(r, mode)[name].apiClass
  {
    hide Soundness.Validated, Soundness.Possible, RolesSeen, NextOf, Expanded, RoleList, Admitted;
    var roles := RolesSeen(r, mode);
    NextStands(f, roles, t, order);
    NextIsFirst(f, RoleCapabilities(roles, t.role), t);
    var next := Next(f, roles, t).value;
    var c := order[Position(order, next)];
    assert c in order;
    Soundness.RoleKeepsClass(r, mode, name, cat, f.catalog, c);
  }

  /** Every dispatch of a role request in a validated registry, however often it fails over and whatever
      discovery adopts or drops meanwhile, goes to a seat of the endpoint family the role requires. */
  lemma {:induction false} RunKeepsClass(r: Registry, mode: string, name: string, cat: Catalog, order: seq<Candidate>, t: Target, tier: Tier,
                                         body: map<string, Json>, forceDirect: bool, moments: seq<Moment>, k: nat)
    requires Soundness.Validated(r) && name in RolesSeen(r, mode) && RolesSeen(r, mode)[name].apiClass != ""
    requires Soundness.Possible(r, mode, cat) && SameMembers(order, Reach(cat, RolesSeen(r, mode)[name]))
    requires k <= MAX_FAILOVER_ATTEMPTS < |moments| && AllPossible(r, mode, moments)
    requires StandsIn(order, t) && t.model.apiClass == RolesSeen(r, mode)[name].apiClass
    ensures forall d | d in Run(RolesSeen(r, mode), t, tier, body, forceDirect, moments, k).log ::
              d.target.model.apiClass == RolesSeen(r, mode)[name].apiClass
    decreases MAX_FAILOVER_ATTEMPTS - k
  {
    hide Soundness.Validated, Soundness.Possible, SameMembers, StandsIn, Reach, RolesSeen;
    hide Run, Stops, MovesOn, Next, Leaves, Wire, ReportsFailure, Suppresses, Ending;
    var (roles, m) := (RolesSeen(r, mode), moments[k]);
    RunUnfolds(roles, t, tier, body, forceDirect, moments, k);
    if Stops(body, t, tier, m.gate, forceDirect).None? && MovesOn(roles, t, k, m) {
      var next := Next(m.after, roles, t).value;
      assert Soundness.Possible(r, mode, m.after.catalog);
      NextKeepsClass(r, mode, name, cat, order, t, m.after);
      RunKeepsClass(r, mode, name, cat, order, next, tier, Leaves(body, t, tier, m.gate), forceDirect, moments, k + 1);
    }
  }

  /** The same from the resolution of the role on. */
  lemma RoleRequestKeepsClass(r: Registry, mode: string, name: string, f: Fleet, tier: Tier, tokens: int, order: seq<Candidate>, at: nat, t: Target,
                              caller: Tier, body: map<string, Json>, forceDirect: bool, moments: seq<Moment>)
    requires Soundness.Validated(r) && name in RolesSeen(r, mode) && RolesSeen(r, mode)[name].apiClass != ""
    requires Soundness.Possible(r, mode, f.catalog) && SameMembers(order, Reach(f.catalog, RolesSeen(r, mode)[name]))
    requires at < |order| && IsTarget(f, name, tier, tokens, order, at, RolesSeen(r, mode)[name], t)
    requires MAX_FAILOVER_ATTEMPTS < |moments| && AllPossible(r, mode, moments)
    ensures forall d | d in Run(RolesSeen(r, mode), t, HeldTo(t, caller), body, forceDirect, moments, 0).log ::
              d.target.model.apiClass == RolesSeen(r, mode)[name].apiClass
  {
    hide Soundness.Validated, Soundness.Possible, RolesSeen, Expanded, RoleList, Run, Downshift;
    assert order[at] in order;
    Soundness.RoleKeepsClass(r, mode, name, f.catalog, f.catalog, order[at]);
    RunKeepsClass(r, mode, name, f.catalog, order, t, HeldTo(t, caller), body, forceDirect, moments, 0);
  }

  // ----- the last candidate's answer ----------------------------------------------------

  /** What the tracker would route to, of these ids, with this bookkeeping. */
  function RoutableIds(c: Seats.Config, seats: map<string, Seats.Seat>, polled: bool, now: int, ids: set<string>): set<string> {
    set id | id in ids && Seats.Routable(Seats.VerdictOf(c, if id in seats then Seats.Some(seats[id]) else Seats.None, polled, now))
  }

  /** A failure reported to the tracker changes the failed seat's own record, so it takes out that seat or
      none: no other one comes or goes. */
  lemma ReportTakesOutAtMost(c: Seats.Config, seats: map<string, Seats.Seat>, polled: bool, now: int, ids: set<string>, id: string, f: Seats.Failure)
    requires id in RoutableIds(c, seats, polled, now, ids)
    ensures var (before, after) := (RoutableIds(c, seats, polled, now, ids),
                                    RoutableIds(c, seats[id := Seats.Fail(c, if id in seats then seats[id] else Seats.NewSeat(false), f, now)], polled, now, ids));
            after == before || after == before - {id}
  {
    hide Seats.Fail, Seats.VerdictOf, Seats.NewSeat, Seats.Routable;
  }

  /** The failed seat stands in its own tail again, and the tail has nothing else to offer. */
  ghost predicate OnlyItself(roles: map<string, Role>, t: Target, f: Fleet) {
    var capabilities := RoleCapabilities(roles, t.role);
    && (exists c :: c in t.remaining && Admitted(f, capabilities, t.tier, t.tokens, c.id))
    && forall c | c in t.remaining && Admitted(f, capabilities, t.tier, t.tokens, c.id) :: c.id == t.id
  }

  /** In every report of the run the tracker took out the failed seat at most. */
  ghost predicate ReportsAreLocal(moments: seq<Moment>, log: seq<Dispatch>) {
    forall n: nat | n < |log| && n < |moments| :: TakesOutAtMost(moments[n], log[n].target.id)
  }

  /** Over a whole run: a client gets a gateway error in place of an upstream's answer exactly when the last
      answer was retryable, attempts were left, its seat was taken out by its own failure, and that same seat
      was all the rest of the order had to offer. */
  lemma AnswerIsLostToRepetition(roles: map<string, Role>, t: Target, tier: Tier, body: map<string, Json>, forceDirect: bool, moments: seq<Moment>)
    requires MAX_FAILOVER_ATTEMPTS < |moments|
    requires ReportsAreLocal(moments, Run(roles, t, tier, body, forceDirect, moments, 0).log)
    ensures var run := Run(roles, t, tier, body, forceDirect, moments, 0);
            var n := |run.log| - 1;
            n < |moments| &&
            ((run.final.BadGateway? && n >= 0 && moments[n].upstream.Answers?) <==>
             && n >= 0 && n < MAX_FAILOVER_ATTEMPTS && Retryable(moments[n].upstream)
             && var last := run.log[n].target;
                Walks(last) && last.id !in moments[n].after.routable && OnlyItself(roles, last, moments[n].ahead))
  {
    hide Run, Disagree, OnlyItself;
    AnswerIsLostExactly(roles, t, tier, body, forceDirect, moments, 0);
    var run := Run(roles, t, tier, body, forceDirect, moments, 0);
    var n := |run.log| - 1;
    if n >= 0 {
      assert TakesOutAtMost(moments[n], run.log[n].target.id);
      DisagreesOnItself(roles, run.log[n].target, n, moments[n]);
    }
  }

  lemma DisagreesOnItself(roles: map<string, Role>, t: Target, k: nat, m: Moment)
    requires TakesOutAtMost(m, t.id)
    ensures Disagree(roles, t, k, m) <==>
            Walks(t) && k < MAX_FAILOVER_ATTEMPTS && t.id !in m.after.routable && OnlyItself(roles, t, m.ahead)
  {
    hide NextOf, Admitted;
    if Walks(t) && k < MAX_FAILOVER_ATTEMPTS {
      RepeatedSeatDisagrees(roles, t, k, m);
    }
  }

  predicate DistinctIds(order: seq<Candidate>) {
    forall i, j | 0 <= i < j < |order| :: order[i].id != order[j].id
  }

  /** So with every seat once in the order, no answer is ever lost. */
  lemma DistinctOrderKeepsAnswers(roles: map<string, Role>, t: Target, tier: Tier, body: map<string, Json>, forceDirect: bool,
                                  moments: seq<Moment>, order: seq<Candidate>)
    requires MAX_FAILOVER_ATTEMPTS < |moments| && StandsIn(order, t) && DistinctIds(order)
    requires ReportsAreLocal(moments, Run(roles, t, tier, body, forceDirect, moments, 0).log)
    ensures var run := Run(roles, t, tier, body, forceDirect, moments, 0);
            run.final.BadGateway? && 0 < |run.log| <= |moments| ==> !moments[|run.log| - 1].upstream.Answers?
  {
    hide Run, Admitted;
    var log := Run(roles, t, tier, body, forceDirect, moments, 0).log;
    AnswerIsLostToRepetition(roles, t, tier, body, forceDirect, moments);
    RunIsSafe(roles, t, tier, body, forceDirect, moments, 0, order);
    if log != [] {
      assert DispatchOk(order, tier, moments, 0, log, |log| - 1);
    }
  }

  // ----- a seat listed twice ------------------------------------------------------------

  const SEAT := "s"
  const CHAIN := "c"
  const NAME := "r"
  const TWICE := Role(Anywhere, [], CHAT, [SEAT, CHAIN], ErrorOut, [], InOrder, [])
  const ONCE := Candidate(SEAT, false, "")
  const AGAIN := Candidate(SEAT, false, CHAIN)

  /** A role that lists a seat, and a chain of that same seat. */
  function TwiceCatalog(): Catalog {
    Catalog(map[SEAT := Soundness.Sited("", "https://s", []), CHAIN := Soundness.Sited("", "", [SEAT])], map[])
  }

  function TwiceRegistry(): Registry {
    Registry(TwiceCatalog().active, map[NAME := TWICE], [], (p, x) => false)
  }

  /** Load time accepts it. */
  lemma TwiceIsValid()
    ensures Soundness.Validated(TwiceRegistry())
  {
    TwiceRoleOk();
    TwiceChainsOk();
    hide Soundness.RoleOk, Soundness.ChainOk, Soundness.Sited;
  }

  lemma TwiceRoleOk()
    ensures Soundness.RoleOk(TwiceRegistry(), NAME, TWICE)
  {
    forall f
      ensures !Validation.Faulty(TwiceRegistry(), NAME, TWICE, f)
    {
      Validation.MemberShape(TwiceRegistry(), TWICE, false, false, SEAT, f);
      Validation.MemberShape(TwiceRegistry(), TWICE, false, false, CHAIN, f);
    }
  }

  lemma TwiceChainsOk()
    ensures forall id | id in TwiceRegistry().models :: Soundness.ChainOk(TwiceRegistry(), id, TwiceRegistry().models[id])
  {
  }

  const LIMITS := Seats.Config(2, 3, 60, 600)

  /** The fleet as the tracker sees it with this record of the seat. */
  function TwiceFleet(s: Seats.Seat): Fleet {
    Fleet(TwiceCatalog(), RoutableIds(LIMITS, map[SEAT := s], true, 0, {SEAT, CHAIN}), {})
  }

  /** The seat answers 429 and asks to be left alone for a while; the tracker is told. */
  function TwiceMoment(): Moment {
    var idle := Seats.NewSeat(false);
    Moment(TwiceCatalog(), TwiceFleet(idle), Answers(429, false), TwiceFleet(Seats.Fail(LIMITS, idle, Seats.Failure(false, 30, "429"), 0)))
  }

  function TwiceTarget(): Target {
    Target(SEAT, TwiceCatalog().active[SEAT], "", NAME, "", false, [AGAIN], 0, TierNone, "")
  }

  /** The role binds to the seat; its own 429 is held back for the sake of the second listing, the report of
      it takes the seat out, and the client gets a gateway error in place of the answer. */
  lemma RepeatedSeatWitness()
    ensures var (f, t, m) := (TwiceMoment().ahead, TwiceTarget(), TwiceMoment());
            var run := Run(map[NAME := TWICE], t, HeldTo(t, TierNone), map[], false, [m, m, m], 0);
            && Reach(f.catalog, TWICE) == [ONCE, AGAIN]
            && First(f, [], TierNone, 0, [ONCE, AGAIN], 0) && IsTarget(f, NAME, TierNone, 0, [ONCE, AGAIN], 0, TWICE, t)
            && |run.log| == 1 && run.log[0].suppressed && Retryable(m.upstream) && run.final.BadGateway?
  {
    var (roles, t, m) := (map[NAME := TWICE], TwiceTarget(), TwiceMoment());
    TwiceReach();
    TwiceBinds();
    TwiceNext();
    hide TwiceMoment, TwiceTarget, Reach, First, IsTarget, Run, Next, Wire, ReportsFailure;
    RunUnfolds(roles, t, TierNone, map[], false, [m, m, m], 0);
  }

  lemma TwiceNext()
    ensures var (roles, t, m) := (map[NAME := TWICE], TwiceTarget(), TwiceMoment());
            && Next(m.ahead, roles, t).Some? && Next(m.after, roles, t).None?
            && Walks(t) && t.tier.TierNone? && m.upstream == Answers(429, false)
  {
    var (t, m) := (TwiceTarget(), TwiceMoment());
    TwiceAdmits();
    NextExists(m.ahead, [], t);
    NextExists(m.after, [], t);
    assert AGAIN in t.remaining;
    hide RoutableIds, TwiceFleet, Soundness.Sited, Admitted, NextOf;
  }

  lemma TwiceBinds()
    ensures var (f, t) := (TwiceMoment().ahead, TwiceTarget());
            First(f, [], TierNone, 0, [ONCE, AGAIN], 0) && IsTarget(f, NAME, TierNone, 0, [ONCE, AGAIN], 0, TWICE, t)
    ensures TwiceMoment().ahead.catalog == TwiceCatalog()
  {
    TwiceAdmits();
    assert [ONCE, AGAIN][1..] == [AGAIN] && [ONCE, AGAIN][..0] == [];
    hide RoutableIds, Soundness.Sited, Admitted;
  }

  lemma TwiceReach()
    ensures Reach(TwiceCatalog(), TWICE) == [ONCE, AGAIN]
  {
    var (cat, list) := (TwiceCatalog(), [ONCE, Candidate(CHAIN, false, "")]);
    assert RoleList(TWICE) == list;
    assert SEAT != CHAIN;
    assert [SEAT][..0] == [];
    assert Expansion(cat, list[0]) == [ONCE];
    assert Expansion(cat, list[1]) == [AGAIN];
    assert list[..1] == [list[0]] && [list[0]][..0] == [];
    assert Expanded(cat, [list[0]]) == [ONCE];
  }

  lemma TwiceVerdicts()
    ensures SEAT in TwiceMoment().ahead.routable && SEAT !in TwiceMoment().after.routable
  {
  }

  lemma TwiceAdmits()
    ensures Admitted(TwiceMoment().ahead, [], TierNone, 0, SEAT) && !Admitted(TwiceMoment().after, [], TierNone, 0, SEAT)
  {
    TwiceVerdicts();
    hide RoutableIds;
  }

  // ----- the directive carried over -----------------------------------------------------

  const CLOUD := "cloud"
  const GPU := "gpu"
  const TOLERANT := Role(LocalOrZdr, [], CHAT, [CLOUD, GPU], ErrorOut, [], InOrder, [])

  function MixedCatalog(): Catalog {
    Catalog(map[CLOUD := Soundness.Sited("", "https://c", []).(zdrHost := true), GPU := Soundness.Sited("n1", "", [])], map[])
  }

  function MixedMoment(status: int): Moment {
    var f := Fleet(MixedCatalog(), {CLOUD, GPU}, {GPU});
    Moment(MixedCatalog(), f, Answers(status, false), f)
  }

  function MixedTarget(id: string, remaining: seq<Candidate>): Target
    requires id in MixedCatalog().active
  {
    Target(id, MixedCatalog().active[id], "", NAME, "", false, remaining, 0, TierZdr, "")
  }

  function MixedRegistry(): Registry {
    Registry(MixedCatalog().active, map[NAME := TOLERANT], [], (p, x) => false)
  }

  const CLOUD_FIRST := Candidate(CLOUD, false, "")
  const THEN_GPU := Candidate(GPU, false, "")

  /** Load time accepts the role, and its first walk binds to the cloud with the fleet left to try. */
  lemma MixedIsBound()
    ensures Soundness.Validated(MixedRegistry())
    ensures var (f, order) := (MixedMoment(500).ahead, [CLOUD_FIRST, THEN_GPU]);
            && Reach(f.catalog, TOLERANT) == order
            && First(f, [], TierZdr, 0, order, 0) && IsTarget(f, NAME, TierZdr, 0, order, 0, TOLERANT, MixedTarget(CLOUD, [THEN_GPU]))
    ensures Stricter(RoleTier(TOLERANT.locality), TierNone) == TierZdr
  {
    MixedRoleOk();
    MixedChainsOk();
    MixedReach();
    MixedFirst();
    hide Soundness.RoleOk, Soundness.ChainOk, Soundness.Sited, Reach, First, IsTarget;
  }

  lemma MixedRoleOk()
    ensures Soundness.RoleOk(MixedRegistry(), NAME, TOLERANT)
  {
    assert CLOUD != GPU;
    forall f
      ensures !Validation.Faulty(MixedRegistry(), NAME, TOLERANT, f)
    {
      Validation.MemberShape(MixedRegistry(), TOLERANT, false, true, CLOUD, f);
      Validation.MemberShape(MixedRegistry(), TOLERANT, false, true, GPU, f);
    }
  }

  lemma MixedChainsOk()
    ensures forall id | id in MixedRegistry().models :: Soundness.ChainOk(MixedRegistry(), id, MixedRegistry().models[id])
  {
  }

  lemma MixedReach()
    ensures Reach(MixedCatalog(), TOLERANT) == [CLOUD_FIRST, THEN_GPU]
  {
    var (cat, list) := (MixedCatalog(), [CLOUD_FIRST, THEN_GPU]);
    assert RoleList(TOLERANT) == list;
    assert CLOUD != GPU;
    assert Expansion(cat, list[0]) == [CLOUD_FIRST] && Expansion(cat, list[1]) == [THEN_GPU];
    assert list[..1] == [list[0]] && [list[0]][..0] == [];
    assert Expanded(cat, [list[0]]) == [CLOUD_FIRST];
  }

  lemma MixedFirst()
    ensures var (f, order) := (MixedMoment(500).ahead, [CLOUD_FIRST, THEN_GPU]);
            First(f, [], TierZdr, 0, order, 0) && IsTarget(f, NAME, TierZdr, 0, order, 0, TOLERANT, MixedTarget(CLOUD, [THEN_GPU]))
  {
    assert CLOUD != GPU;
    assert [CLOUD_FIRST, THEN_GPU][1..] == [THEN_GPU] && [CLOUD_FIRST, THEN_GPU][..0] == [];
  }

  /** A request with its own provider object goes to the cloud, which fails, and then to the fleet: the second
      body carries the directive that was put on for the first. */
  lemma SpoiledRunWitness()
    ensures var (t, body) := (MixedTarget(CLOUD, [Candidate(GPU, false, "")]), map[PROVIDER := Obj(map[])]);
            var moments := [MixedMoment(500), MixedMoment(200), MixedMoment(200)];
            var run := Run(map[NAME := TOLERANT], t, HeldTo(t, TierNone), body, false, moments, 0);
            && |run.log| == 2 && run.final == Forwarded && run.log[1].target == MixedTarget(GPU, [])
            && PROVIDER in run.log[1].body && run.log[1].body[PROVIDER] == Obj(map[ZDR := Bool(true)])
            && var alone := Wire(body, run.log[1].target, TierZdr, MixedCatalog(), false);
               PROVIDER in alone && alone[PROVIDER] == Obj(map[])
  {
    var (roles, cloud, gpu) := (map[NAME := TOLERANT], MixedTarget(CLOUD, [Candidate(GPU, false, "")]), MixedTarget(GPU, []));
    var body: map<string, Json> := map[PROVIDER := Obj(map[])];
    var moments := [MixedMoment(500), MixedMoment(200), MixedMoment(200)];
    var left := Leaves(body, cloud, TierZdr, MixedCatalog());
    MixedPlaces();
    SpoiledWitness(cloud, gpu, MixedCatalog());
    MixedMoves();
    MixedPasses();
    hide Wire, Leaves, Next, Stops, MovesOn, Suppresses, Ending, ReportsFailure, MixedCatalog, MixedTarget, Run;
    RunUnfolds(roles, cloud, TierZdr, body, false, moments, 0);
    RunUnfolds(roles, gpu, TierZdr, left, false, moments, 1);
  }

  lemma MixedPlaces()
    ensures var (cat, cloud, gpu) := (MixedCatalog(), MixedTarget(CLOUD, [Candidate(GPU, false, "")]), MixedTarget(GPU, []));
            && Lookup(cat, cloud.id) == Some(cloud.model) && !IsLocal(cloud.model) && ZdrEnforceable(cloud.model) && cloud.alias == ""
            && Lookup(cat, gpu.id) == Some(gpu.model) && IsLocal(gpu.model) && gpu.alias == ""
            && cloud.model.defaults == ModelDefaults(map[], map[]) == gpu.model.defaults && cloud.tier == TierZdr
    ensures MixedMoment(500).gate == MixedCatalog() == MixedMoment(200).gate
  {
    assert CLOUD != GPU;
  }

  lemma MixedMoves()
    ensures var (roles, cloud, gpu) := (map[NAME := TOLERANT], MixedTarget(CLOUD, [Candidate(GPU, false, "")]), MixedTarget(GPU, []));
            && MovesOn(roles, cloud, 0, MixedMoment(500)) && Next(MixedMoment(500).after, roles, cloud) == Some(gpu)
            && !MovesOn(roles, gpu, 1, MixedMoment(200)) && Ending(MixedMoment(200).upstream, Suppresses(roles, gpu, 1, MixedMoment(200))) == Forwarded
  {
    MixedNext();
    hide NextOf, MixedCatalog;
  }

  lemma MixedNext()
    ensures var (f, cloud, gpu) := (MixedMoment(500).after, MixedTarget(CLOUD, [Candidate(GPU, false, "")]), MixedTarget(GPU, []));
            Next(f, map[NAME := TOLERANT], cloud) == Some(gpu) && Next(f, map[NAME := TOLERANT], gpu).None?
  {
    assert CLOUD != GPU;
    assert [Candidate(GPU, false, "")][1..] == [];
  }

  lemma MixedPasses()
    ensures var (cat, gpu) := (MixedCatalog(), MixedTarget(GPU, []));
            forall body: map<string, Json> :: Stops(body, gpu, TierZdr, cat, false).None?
  {
    assert CLOUD != GPU;
  }

  // ----- a provider that is not there ---------------------------------------------------

  const GONE := "gone"
  const PROVIDERS := [Candidate(CLOUD, false, CHAIN), Candidate(GONE, false, CHAIN)]

  function ChainOfTwo(): ModelDef {
    Soundness.Sited("", "", [CLOUD, GONE])
  }

  /** The chain, one of its two providers, and nothing else: the other is not in this mode. */
  function HalfChain(): Catalog {
    Catalog(map[CHAIN := ChainOfTwo(), CLOUD := Soundness.Sited("", "https://c", [])], map[])
  }

  /** The chain and its one provider. */
  function FullChain(): Catalog {
    Catalog(map[CHAIN := Soundness.Sited("", "", [CLOUD]), CLOUD := Soundness.Sited("", "https://c", [])], map[])
  }

  lemma ChainOrders()
    ensures ChainOrder(CHAIN, ChainOfTwo()) == PROVIDERS
    ensures ChainOrder(CHAIN, Soundness.Sited("", "", [CLOUD])) == [Candidate(CLOUD, false, CHAIN)]
  {
    var c := Candidate(CHAIN, false, CHAIN);
    assert [CLOUD, GONE][..1] == [CLOUD] && [CLOUD][..0] == [];
    assert Links([CLOUD], c) == [Candidate(CLOUD, false, CHAIN)];
    assert Links([CLOUD, GONE], c) == PROVIDERS;
  }

  lemma CloudExcluded()
    ensures Excluded(HalfChain(), TierLocal, CLOUD) && Excluded(FullChain(), TierLocal, CLOUD)
    ensures Lookup(HalfChain(), GONE).None? && !Excluded(HalfChain(), TierLocal, GONE)
  {
    assert CLOUD != GONE && CHAIN != CLOUD && CHAIN != GONE;
  }

  lemma NothingServes(f: Fleet)
    requires f.catalog == HalfChain()
    ensures NoneAdmitted(ChainView(f), [], TierLocal, 0, PROVIDERS)
  {
    CloudExcluded();
    assert ChainView(f).catalog == HalfChain();
    assert !Admitted(ChainView(f), [], TierLocal, 0, CLOUD) && !Admitted(ChainView(f), [], TierLocal, 0, GONE);
    hide Admitted, HalfChain;
  }

  /** A chain of one cloud provider and one that this mode does not have, asked for by a caller who wants the
      fleet: every provider the mode knows is ruled out by policy and nothing can ever serve, and yet every
      answer to it is an outage. Without the missing provider it is a refusal. */
  lemma MissingProviderWitness(r: Registry, f: Fleet, g: Fleet, res: Resolution, at: Option<nat>)
    requires f.catalog == HalfChain() && g.catalog == FullChain()
    ensures IsChainAnswer(r, f, CHAIN, f.catalog.active[CHAIN], TierLocal, res, at) ==> res.Unavailable?
    ensures IsChainAnswer(r, g, CHAIN, g.catalog.active[CHAIN], TierLocal, res, at) ==> res.PolicyRefused?
  {
    ChainOrders();
    CloudExcluded();
    NothingServes(f);
    assert ChainView(f).catalog == HalfChain() && ChainView(g).catalog == FullChain();
    ChainRefusedExactly(r, HalfChain(), TierLocal, PROVIDERS);
    ChainRefusedExactly(r, FullChain(), TierLocal, [Candidate(CLOUD, false, CHAIN)]);
    assert PROVIDERS[1] in PROVIDERS;
    assert HalfChain().active[CHAIN] == ChainOfTwo() && FullChain().active[CHAIN] == Soundness.Sited("", "", [CLOUD]) by {
      assert CHAIN != CLOUD;
    }
    hide PolicyBlocked, ChainOrder, NoneAdmitted, Excluded, Lists, HalfChain, FullChain, ChainView, First;
  }
}
