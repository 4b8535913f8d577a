/** Load balancing among the interchangeable candidates of a role (internal/router/pressure.go): the
    load table, and the order it gives a preference list. */
module Pressures {
  import opened RequestDefaults
  import opened Registries
  import opened Candidates

  /** An unroutable seat counts as this loaded, which puts it last within its rank. */
  const UNROUTABLE := 0x4000_0000

  /** Agent-reported load; gpuBusy is -1 when the agent does not know. */
  datatype SeatLoad = SeatLoad(running: int, waiting: int, gpuBusy: int)

  function Bucket(thresholds: seq<int>, pct: int): nat {
    if pct < 0 || thresholds == [] then 0
    else Bucket(thresholds[..|thresholds| - 1], pct) + if pct >= thresholds[|thresholds| - 1] then 1 else 0
  }

  /** How many of the thresholds a GPU reaches; one that does not report reaches none. */
  lemma {:induction false} BucketCounts(thresholds: seq<int>, pct: int)
    ensures pct < 0 ==> Bucket(thresholds, pct) == 0
    ensures pct >= 0 ==> Bucket(thresholds, pct) == |set k | 0 <= k < |thresholds| && thresholds[k] <= pct|
  {
    var all := set k | 0 <= k < |thresholds| && thresholds[k] <= pct;
    if thresholds == [] {
      assert all == {};
    } else {
      var n := |thresholds| - 1;
      var front := thresholds[..n];
      BucketCounts(front, pct);
      var few := set k | 0 <= k < n && front[k] <= pct;
      assert all == if thresholds[n] <= pct then few + {n} else few;
    }
  }

  class PressureTracker {
    const thresholds: seq<int>
    const window: int
    var inflight: map<string, int>
    var lastServed: map<string, int>
    var loads: map<string, SeatLoad>

    constructor (thresholds: seq<int>, window: int)
      ensures inflight == map[] && lastServed == map[] && loads == map[]
      ensures this.thresholds == thresholds && this.window == window
    {
      this.thresholds, this.window := thresholds, window;
      inflight, lastServed, loads := map[], map[], map[];
    }

    function InFlight(id: string): int
      reads this
    {
      if id in inflight then inflight[id] else 0
    }

    method AddInflight(id: string)
      modifies this`inflight
      ensures inflight == old(inflight)[id := old(InFlight(id)) + 1]
      ensures forall other, t | other != id :: Pressure(other, t) == old(Pressure(other, t))
      ensures forall t :: Pressure(id, t) == old(Pressure(id, t)) + if (if id in loads then loads[id].running else 0) > old(InFlight(id)) then 0 else 1
    {
      inflight := inflight[id := InFlight(id) + 1];
    }

    method DoneInflight(id: string)
      modifies this`inflight
      ensures inflight == if old(InFlight(id)) > 0 then old(inflight)[id := old(InFlight(id)) - 1] else old(inflight)
      ensures forall other, t | other != id :: Pressure(other, t) == old(Pressure(other, t))
      ensures forall t :: Pressure(id, t) == old(Pressure(id, t)) -
                          if old(InFlight(id)) <= 0 || (id in loads && loads[id].running >= old(InFlight(id))) then 0 else 1
    {
      if id in inflight && inflight[id] > 0 {
        inflight := inflight[id := inflight[id] - 1];
      }
    }

    method MarkServed(id: string, now: int)
      modifies this`lastServed
      ensures lastServed == old(lastServed)[id := now]
      ensures forall other, t | other != id :: Pressure(other, t) == old(Pressure(other, t))
      ensures forall t | old(id !in lastServed) :: Pressure(id, t) == old(Pressure(id, t)) - if t - now < window then 1 else 0
    {
      lastServed := lastServed[id := now];
    }

    /** The busier of what this router sends and what the agent runs, plus the queue, plus the GPU
        bucket, minus one for a warm prompt cache; what is unknown counts nothing. */
    function Pressure(id: string, now: int): int
      reads this
    {
      var load := if id in loads then loads[id] else SeatLoad(0, 0, 0);
      var base := if load.running > InFlight(id) then load.running else InFlight(id);
      base + load.waiting + Bucket(thresholds, load.gpuBusy)
      - if id in lastServed && now - lastServed[id] < window then 1 else 0
    }
  }

  // ----- preference ranks ---------------------------------------------------------------

  /** The last position of an id in a list, -1 if it is not there. */
  function LastIndex(ids: seq<string>, id: string): int
    ensures -1 <= LastIndex(ids, id) < |ids|
    ensures LastIndex(ids, id) >= 0 <==> id in ids
    ensures LastIndex(ids, id) >= 0 ==> ids[LastIndex(ids, id)] == id
  {
    if ids == [] then -1
    else if ids[|ids| - 1] == id then |ids| - 1
    else LastIndex(ids[..|ids| - 1], id)
  }

  /** The smallest declared index of a group's members, -1 if none is a candidate. */
  function Representative(candidates: seq<string>, group: seq<string>): int
    ensures Representative(candidates, group) >= 0 <==> exists id :: id in group && id in candidates
    ensures Representative(candidates, group) >= 0 ==>
              forall id | id in group && id in candidates :: Representative(candidates, group) <= LastIndex(candidates, id)
    ensures Representative(candidates, group) >= 0 ==>
              exists id :: id in group && id in candidates && Representative(candidates, group) == LastIndex(candidates, id)
    ensures Representative(candidates, group) >= -1
  {
    if group == [] then -1
    else
      var rest := Representative(candidates, group[..|group| - 1]);
      var here := LastIndex(candidates, group[|group| - 1]);
      assert group == group[..|group| - 1] + [group[|group| - 1]];
      if here >= 0 && (rest < 0 || here < rest) then here else rest
  }

  /** A candidate's rank: the representative of the last group it is in, its own index otherwise. */
  function Rank(candidates: seq<string>, groups: seq<seq<string>>, id: string): int {
    if groups == [] then LastIndex(candidates, id)
    else if id in groups[|groups| - 1] then Representative(candidates, groups[|groups| - 1])
    else Rank(candidates, groups[..|groups| - 1], id)
  }

  method FindRepresentative(candidates: seq<string>, group: seq<string>) returns (rep: int)
    ensures rep == Representative(candidates, group)
  {
    rep := -1;
    for i := 0 to |group|
      invariant rep == Representative(candidates, group[..i])
    {
      assert group[..i + 1][..i] == group[..i];
      var at := LastIndex(candidates, group[i]);
      if at >= 0 && (rep < 0 || at < rep) {
        rep := at;
      }
    }
    assert group[..|group|] == group;
  }

  method Tie(rank: map<string, int>, group: seq<string>, rep: int) returns (tied: map<string, int>)
    ensures tied == map id | id in rank :: if id in group then rep else rank[id]
  {
    tied := rank;
    for i := 0 to |group|
      invariant tied.Keys == rank.Keys
      invariant forall id | id in tied :: tied[id] == if id in group[..i] then rep else rank[id]
    {
      if group[i] in tied {
        tied := tied[group[i] := rep];
      }
    }
    assert group[..|group|] == group;
  }

  method DeclaredRanks(candidates: seq<string>) returns (rank: map<string, int>)
    ensures rank == map id | id in candidates :: LastIndex(candidates, id)
  {
    rank := map[];
    for i := 0 to |candidates|
      invariant rank == map id | id in candidates[..i] :: LastIndex(candidates[..i], id)
    {
      assert candidates[..i + 1][..i] == candidates[..i];
      rank := rank[candidates[i] := i];
    }
    assert candidates[..|candidates|] == candidates;
  }

  lemma RanksDeclared(candidates: seq<string>)
    ensures forall id | id in candidates :: Rank(candidates, [], id) == LastIndex(candidates, id)
  {
  }

  /** One more group ties its members to its representative, if it has one. */
  lemma RanksTied(candidates: seq<string>, groups: seq<seq<string>>, group: seq<string>)
    ensures forall id | id in candidates ::
              Rank(candidates, groups + [group], id) == if id in group then Representative(candidates, group) else Rank(candidates, groups, id)
    ensures (exists id :: id in group && id in candidates) ==> Representative(candidates, group) >= 0
  {
    assert (groups + [group])[..|groups|] == groups;
    hide LastIndex;
  }

  method CandidateRanks(role: Role) returns (rank: map<string, int>)
    ensures rank == map id | id in role.candidates :: Rank(role.candidates, role.balanceGroups, id)
  {
    hide Rank, LastIndex, Representative;
    rank := DeclaredRanks(role.candidates);
    RanksDeclared(role.candidates);
    for g := 0 to |role.balanceGroups|
      invariant rank == map id | id in role.candidates :: Rank(role.candidates, role.balanceGroups[..g], id)
    {
      var group := role.balanceGroups[g];
      RanksTied(role.candidates, role.balanceGroups[..g], group);
      assert role.balanceGroups[..g + 1] == role.balanceGroups[..g] + [group];
      var rep := FindRepresentative(role.candidates, group);
      if rep >= 0 {
        rank := Tie(rank, group, rep);
      }
    }
    assert role.balanceGroups[..|role.balanceGroups|] == role.balanceGroups;
  }

  // ----- the order ----------------------------------------------------------------------

  /** Entry a of the list goes before entry b: by rank, then by load, then as declared. */
  predicate Goes(base: seq<Candidate>, rank: map<string, int>, load: map<string, int>, a: nat, b: nat)
    requires a < |base| && b < |base| && Keyed(base, rank) && Keyed(base, load)
  {
    var (ra, rb) := (rank[base[a].id], rank[base[b].id]);
    var (la, lb) := (load[base[a].id], load[base[b].id]);
    ra < rb || (ra == rb && (la < lb || (la == lb && a < b)))
  }

  predicate Keyed(base: seq<Candidate>, keys: map<string, int>) {
    forall i | 0 <= i < |base| :: base[i].id in keys
  }

  predicate Below(perm: seq<nat>, n: nat) {
    forall i | 0 <= i < |perm| :: perm[i] < n
  }

  predicate At(perm: seq<nat>, i: nat, k: nat) {
    i < |perm| && perm[i] == k
  }

  ghost predicate Covers(perm: seq<nat>, n: nat) {
    forall k: nat | k < n :: Covered(perm, k)
  }

  ghost predicate Covered(perm: seq<nat>, k: nat) {
    exists i: nat :: At(perm, i, k)
  }

  /** The first n entries, each once, in the order they go. */
  ghost predicate Ordered(base: seq<Candidate>, rank: map<string, int>, load: map<string, int>, perm: seq<nat>, n: nat)
    requires n <= |base| && Keyed(base, rank) && Keyed(base, load)
    ensures Ordered(base, rank, load, perm, n) ==> |perm| == n && Below(perm, n)
  {
    && |perm| == n && Below(perm, n)
    && Covers(perm, n)
    && forall i, j | 0 <= i < j < n :: Goes(base, rank, load, perm[i], perm[j])
  }

  ghost function Image(base: seq<Candidate>, perm: seq<nat>): seq<Candidate>
    requires Below(perm, |base|)
  {
    seq(|perm|, i requires 0 <= i < |perm| => base[perm[i]])
  }

  /** A stable sort by rank and load. */
  method SortStable(base: seq<Candidate>, rank: map<string, int>, load: map<string, int>) returns (out: seq<Candidate>, ghost perm: seq<nat>)
    requires Keyed(base, rank) && Keyed(base, load)
    ensures Ordered(base, rank, load, perm, |base|) && out == Image(base, perm)
    ensures multiset(out) == multiset(base)
  {
    hide Ordered, Fits;
    out, perm := [], [];
    assert base[..0] == [];
    assert Ordered(base, rank, load, [], 0) by { NothingOrdered(base, rank, load); }
    for n := 0 to |base|
      invariant Ordered(base, rank, load, perm, n) && out == Image(base, perm)
      invariant multiset(out) == multiset(base[..n])
    {
      var at := Place(base, rank, load, perm, n, out);
      assert base[..n + 1] == base[..n] + [base[n]];
      InsertedMultiset(out, base[n], at);
      Inserted(base, rank, load, perm, n, at);
      out := out[..at] + [base[n]] + out[at..];
      perm := perm[..at] + [n] + perm[at..];
    }
    assert base[..|base|] == base;
  }

  lemma NothingOrdered(base: seq<Candidate>, rank: map<string, int>, load: map<string, int>)
    requires Keyed(base, rank) && Keyed(base, load)
    ensures Ordered(base, rank, load, [], 0)
  {
  }

  /** Where the next entry goes: past everything that does not go after it. */
  method Place(base: seq<Candidate>, rank: map<string, int>, load: map<string, int>, ghost perm: seq<nat>, n: nat, out: seq<Candidate>)
    returns (at: nat)
    requires n < |base| && Keyed(base, rank) && Keyed(base, load) && Ordered(base, rank, load, perm, n) && out == Image(base, perm)
    ensures Fits(base, rank, load, perm, n, at)
  {
    var c := base[n];
    at := n;
    while at > 0 && (rank[c.id] < rank[out[at - 1].id] ||
                     (rank[c.id] == rank[out[at - 1].id] && load[c.id] < load[out[at - 1].id]))
      invariant 0 <= at <= n
      invariant forall k | at <= k < n :: Goes(base, rank, load, n, perm[k])
    {
      at := at - 1;
    }
  }

  ghost predicate Fits(base: seq<Candidate>, rank: map<string, int>, load: map<string, int>, perm: seq<nat>, n: nat, at: nat)
    requires n < |base| && Keyed(base, rank) && Keyed(base, load) && |perm| == n && Below(perm, n)
    ensures Fits(base, rank, load, perm, n, at) ==> at <= n
  {
    && at <= n
    && (forall k | at <= k < n :: Goes(base, rank, load, n, perm[k]))
    && (at > 0 ==> Goes(base, rank, load, perm[at - 1], n))
  }

  lemma Inserted(base: seq<Candidate>, rank: map<string, int>, load: map<string, int>, perm: seq<nat>, n: nat, at: nat)
    requires n < |base| && Keyed(base, rank) && Keyed(base, load) && Ordered(base, rank, load, perm, n)
    requires Fits(base, rank, load, perm, n, at)
    ensures Ordered(base, rank, load, perm[..at] + [n] + perm[at..], n + 1)
    ensures Image(base, perm[..at] + [n] + perm[at..]) == Image(base, perm)[..at] + [base[n]] + Image(base, perm)[at..]
  {
    var more := perm[..at] + [n] + perm[at..];
    forall i | 0 <= i < at
      ensures Goes(base, rank, load, perm[i], n)
    {
      if i < at - 1 {
        assert Goes(base, rank, load, perm[i], perm[at - 1]);
        GoesTrans(base, rank, load, perm[i], perm[at - 1], n);
      }
    }
    hide Goes, Keyed;
    InsertedCovers(perm, n, at);
    forall i, j | 0 <= i < j < n + 1
      ensures Goes(base, rank, load, more[i], more[j])
    {
      InsertedAt(perm, n, at, i);
      InsertedAt(perm, n, at, j);
    }
  }

  lemma InsertedAt(perm: seq<nat>, n: nat, at: nat, i: nat)
    requires at <= |perm| && i <= |perm|
    ensures (perm[..at] + [n] + perm[at..])[i] == if i < at then perm[i] else if i == at then n else perm[i - 1]
  {
  }

  lemma InsertedCovers(perm: seq<nat>, n: nat, at: nat)
    requires |perm| == n && at <= n && Below(perm, n) && Covers(perm, n)
    ensures var more := perm[..at] + [n] + perm[at..];
            |more| == n + 1 && Below(more, n + 1) && Covers(more, n + 1)
  {
    var more := perm[..at] + [n] + perm[at..];
    forall k: nat | k < n + 1
      ensures Covered(more, k)
    {
      if k < n {
        assert Covered(perm, k);
        var i: nat :| At(perm, i, k);
        assert At(more, if i < at then i else i + 1, k);
      } else {
        assert At(more, at, k);
      }
    }
  }

  lemma InsertedMultiset<T>(xs: seq<T>, x: T, at: nat)
    requires at <= |xs|
    ensures multiset(xs[..at] + [x] + xs[at..]) == multiset(xs + [x])
  {
    assert xs == xs[..at] + xs[at..];
  }

  lemma GoesTrans(base: seq<Candidate>, rank: map<string, int>, load: map<string, int>, a: nat, b: nat, c: nat)
    requires a < |base| && b < |base| && c < |base| && Keyed(base, rank) && Keyed(base, load)
    requires Goes(base, rank, load, a, b) && Goes(base, rank, load, b, c)
    ensures Goes(base, rank, load, a, c)
  {
  }

  // ----- the one case load beats rank ---------------------------------------------------

  /** Entry i may overtake the head: another rank below it, the same side of the locality boundary,
      routable and idle. */
  predicate Promotable(order: seq<Candidate>, rank: map<string, int>, load: map<string, int>, pr: map<string, int>, i: nat)
    requires i < |order| && Keyed(order, rank) && Keyed(order, load) && Keyed(order, pr)
  {
    && order[i].overflow == order[0].overflow
    && rank[order[i].id] > rank[order[0].id]
    && load[order[i].id] < UNROUTABLE && pr[order[i].id] <= 1
  }

  predicate Jammed(c: Candidate, load: map<string, int>, pr: map<string, int>)
    requires c.id in load && c.id in pr
  {
    load[c.id] < UNROUTABLE && pr[c.id] >= 3
  }

  function MoveToFront(order: seq<Candidate>, i: nat): seq<Candidate>
    requires i < |order|
  {
    [order[i]] + order[..i] + order[i + 1..]
  }

  /** The first promotable entry, if the head is jammed. */
  ghost predicate Promotes(order: seq<Candidate>, rank: map<string, int>, load: map<string, int>, pr: map<string, int>, moved: Option<nat>)
    requires Keyed(order, rank) && Keyed(order, load) && Keyed(order, pr)
  {
    if moved.None? then
      order == [] || !Jammed(order[0], load, pr) || forall i | 0 < i < |order| :: !Promotable(order, rank, load, pr, i)
    else
      && 0 < moved.value < |order| && Jammed(order[0], load, pr) && Promotable(order, rank, load, pr, moved.value)
      && forall i | 0 < i < moved.value :: !Promotable(order, rank, load, pr, i)
  }

  /** A seat overtakes exactly if the head is routable and jammed, with a load of three or more, and some seat of a
      lower rank on the same side of the boundary is routable and idle, with a load of at most one; it is such a seat. */
  lemma PromotedExactly(order: seq<Candidate>, rank: map<string, int>, load: map<string, int>, pr: map<string, int>, moved: Option<nat>)
    requires Keyed(order, rank) && Keyed(order, load) && Keyed(order, pr) && Promotes(order, rank, load, pr, moved)
    ensures moved.Some? <==>
              && order != [] && load[order[0].id] < UNROUTABLE && pr[order[0].id] >= 3
              && exists i | 0 < i < |order| ::
                   && order[i].overflow == order[0].overflow && rank[order[i].id] > rank[order[0].id]
                   && load[order[i].id] < UNROUTABLE && pr[order[i].id] <= 1
    ensures moved.Some? ==>
              && 0 < moved.value < |order| && pr[order[moved.value].id] <= 1 && load[order[moved.value].id] < UNROUTABLE
              && order[moved.value].overflow == order[0].overflow && rank[order[moved.value].id] > rank[order[0].id]
  {
    if moved.Some? {
      assert Promotable(order, rank, load, pr, moved.value);
    } else if order != [] && Jammed(order[0], load, pr) {
      forall i | 0 < i < |order|
        ensures order[i].overflow == order[0].overflow && rank[order[i].id] > rank[order[0].id] && load[order[i].id] < UNROUTABLE ==> pr[order[i].id] > 1
      {
        assert !Promotable(order, rank, load, pr, i);
      }
    }
  }

  lemma MovedPermutes(order: seq<Candidate>, i: nat)
    requires i < |order|
    ensures multiset(MoveToFront(order, i)) == multiset(order)
  {
    assert order == order[..i] + [order[i]] + order[i + 1..];
  }

  method ApplyRankOverride(order: seq<Candidate>, rank: map<string, int>, load: map<string, int>, pr: map<string, int>)
    returns (out: seq<Candidate>, moved: Option<nat>)
    requires Keyed(order, rank) && Keyed(order, load) && Keyed(order, pr)
    ensures Promotes(order, rank, load, pr, moved)
    ensures out == if moved.None? then order else MoveToFront(order, moved.value)
    ensures multiset(out) == multiset(order)
  {
    hide MoveToFront;
    out, moved := order, None;
    if |order| < 2 || !Jammed(order[0], load, pr) {
      return;
    }
    for i := 1 to |order|
      invariant forall k | 0 < k < i :: !Promotable(order, rank, load, pr, k)
    {
      if Promotable(order, rank, load, pr, i) {
        MovedPermutes(order, i);
        return MoveToFront(order, i), Some(i);
      }
    }
  }

  // ----- the whole order ----------------------------------------------------------------

  /** What the sort goes by: ranks with the overflow after the candidates, loads with the unroutable
      ones sunk. */
  ghost predicate SortKeys(base: seq<Candidate>, role: Role, routable: set<string>, rank: map<string, int>,
                           load: map<string, int>, pr: map<string, int>) {
    && (forall id :: id in rank <==> id in load) && (forall id :: id in load <==> id in pr)
    && Keyed(base, rank)
    && (forall id | id in load :: load[id] == if id in routable then pr[id] else UNROUTABLE)
    && (forall id | id in rank && id in role.candidates :: rank[id] == Rank(role.candidates, role.balanceGroups, id))
    && (forall id | id in rank && id !in role.candidates ::
          exists i :: 0 <= i < |base| && base[i].id == id && rank[id] == |role.candidates| + i)
  }

  method FindKeys(base: seq<Candidate>, role: Role, routable: set<string>, tracker: PressureTracker, now: int)
    returns (rank: map<string, int>, load: map<string, int>, pr: map<string, int>)
    ensures SortKeys(base, role, routable, rank, load, pr)
    ensures forall id | id in pr :: pr[id] == tracker.Pressure(id, now)
  {
    var ranks := CandidateRanks(role);
    rank, load, pr := map[], map[], map[];
    for i := 0 to |base|
      invariant SortKeys(base[..i], role, routable, rank, load, pr)
      invariant forall id | id in pr :: pr[id] == tracker.Pressure(id, now)
    {
      var id := base[i].id;
      var p := tracker.Pressure(id, now);
      OneMoreKey(base, role, routable, rank, load, pr, i, p);
      rank := rank[id := if id in ranks then ranks[id] else |role.candidates| + i];
      pr := pr[id := p];
      load := load[id := if id in routable then p else UNROUTABLE];
    }
    assert base[..|base|] == base;
  }

  lemma OneMoreKey(base: seq<Candidate>, role: Role, routable: set<string>, rank: map<string, int>, load: map<string, int>,
                   pr: map<string, int>, i: nat, p: int)
    requires i < |base| && SortKeys(base[..i], role, routable, rank, load, pr)
    ensures var id := base[i].id;
            SortKeys(base[..i + 1], role, routable,
                     rank[id := if id in role.candidates then Rank(role.candidates, role.balanceGroups, id) else |role.candidates| + i],
                     load[id := if id in routable then p else UNROUTABLE], pr[id := p])
  {
    hide Rank;
    var id := base[i].id;
    var more := base[..i + 1];
    assert forall k | 0 <= k < i :: more[k] == base[..i][k];
    assert more[i].id == id;
  }

  method OrderByPressure(base: seq<Candidate>, role: Role, routable: set<string>, tracker: PressureTracker, now: int)
    returns (out: seq<Candidate>, pr: map<string, int>, ghost rank: map<string, int>, ghost load: map<string, int>,
             ghost perm: seq<nat>, ghost moved: Option<nat>)
    ensures SortKeys(base, role, routable, rank, load, pr)
    ensures forall id | id in pr :: pr[id] == tracker.Pressure(id, now)
    ensures Ordered(base, rank, load, perm, |base|)
    ensures Keyed(Image(base, perm), rank) && Promotes(Image(base, perm), rank, load, pr, moved)
    ensures out == if moved.None? then Image(base, perm) else MoveToFront(Image(base, perm), moved.value)
    ensures multiset(out) == multiset(base)
  {
    hide SortKeys, Ordered, Promotes, MoveToFront, Jammed, Promotable;
    var ranks, loads;
    ranks, loads, pr := FindKeys(base, role, routable, tracker, now);
    rank, load := ranks, loads;
    AllKeyed(base, role, routable, rank, load, pr);
    var sorted;
    sorted, perm := SortStable(base, ranks, loads);
    ImageKeyed(base, perm, rank, load, pr);
    var promoted;
    out, promoted := ApplyRankOverride(sorted, ranks, loads, pr);
    moved := promoted;
  }

  lemma AllKeyed(base: seq<Candidate>, role: Role, routable: set<string>, rank: map<string, int>, load: map<string, int>, pr: map<string, int>)
    requires SortKeys(base, role, routable, rank, load, pr)
    ensures Keyed(base, rank) && Keyed(base, load) && Keyed(base, pr)
  {
  }

  lemma ImageKeyed(base: seq<Candidate>, perm: seq<nat>, rank: map<string, int>, load: map<string, int>, pr: map<string, int>)
    requires Keyed(base, rank) && Keyed(base, load) && Keyed(base, pr) && Ordered(base, rank, load, perm, |base|)
    ensures Keyed(Image(base, perm), rank) && Keyed(Image(base, perm), load) && Keyed(Image(base, perm), pr)
  {
    hide Goes;
  }

  // ----- what the order promises --------------------------------------------------------

  predicate DistinctIds(base: seq<Candidate>) {
    forall i, j | 0 <= i < j < |base| :: base[i].id != base[j].id
  }

  lemma {:induction false} RankBounded(candidates: seq<string>, groups: seq<seq<string>>, id: string)
    requires id in candidates
    ensures 0 <= Rank(candidates, groups, id) < |candidates|
  {
    if groups != [] && id !in groups[|groups| - 1] {
      RankBounded(candidates, groups[..|groups| - 1], id);
    }
  }

  /** The members of a balance group share its smallest declared index. */
  lemma {:induction false} GroupSharesRank(candidates: seq<string>, groups: seq<seq<string>>, g: nat, id: string)
    requires g < |groups| && id in groups[g] && id in candidates
    requires forall k | g < k < |groups| :: id !in groups[k]
    ensures Rank(candidates, groups, id) == Representative(candidates, groups[g])
    ensures forall other | other in groups[g] && other in candidates :: Rank(candidates, groups, id) <= LastIndex(candidates, other)
    ensures exists other :: other in groups[g] && other in candidates && Rank(candidates, groups, id) == LastIndex(candidates, other)
  {
    if g < |groups| - 1 {
      GroupSharesRank(candidates, groups[..|groups| - 1], g, id);
    }
  }

  lemma {:induction false} UngroupedKeepsRank(candidates: seq<string>, groups: seq<seq<string>>, id: string)
    requires forall k | 0 <= k < |groups| :: id !in groups[k]
    ensures Rank(candidates, groups, id) == LastIndex(candidates, id)
  {
    if groups != [] {
      UngroupedKeepsRank(candidates, groups[..|groups| - 1], id);
    }
  }

  lemma RoleListShape(role: Role, k: nat)
    requires DistinctIds(RoleList(role)) && k < |RoleList(role)|
    ensures var c := RoleList(role)[k];
            && (c.overflow <==> k >= |role.candidates|)
            && (c.overflow <==> c.id !in role.candidates)
  {
    var base := RoleList(role);
    var c := base[k];
    if k < |role.candidates| {
      assert c.id == role.candidates[k];
    } else {
      forall i | 0 <= i < |role.candidates|
        ensures role.candidates[i] != c.id
      {
        assert base[i].id == role.candidates[i];
      }
    }
  }

  lemma RankOfEntry(role: Role, routable: set<string>, rank: map<string, int>, load: map<string, int>, pr: map<string, int>, k: nat)
    requires DistinctIds(RoleList(role)) && SortKeys(RoleList(role), role, routable, rank, load, pr) && k < |RoleList(role)|
    ensures var c := RoleList(role)[k];
            && c.id in rank
            && (!c.overflow ==> 0 <= rank[c.id] < |role.candidates|)
            && (c.overflow ==> rank[c.id] == |role.candidates| + k)
  {
    RoleListShape(role, k);
    var base := RoleList(role);
    var c := base[k];
    if c.overflow {
      var i :| 0 <= i < |base| && base[i].id == c.id && rank[c.id] == |role.candidates| + i;
      assert i == k;
    } else {
      RankBounded(role.candidates, role.balanceGroups, c.id);
    }
  }

  /** Before any promotion: no overflow ahead of a candidate and the overflow as declared, ranks in
      order, and within a rank the routable seats first by ascending load, ties and the unroutable ones
      as declared. */
  lemma BalancedOrder(role: Role, routable: set<string>, rank: map<string, int>, load: map<string, int>, pr: map<string, int>,
                      perm: seq<nat>, i: nat, j: nat)
    requires var base := RoleList(role);
             DistinctIds(base) && SortKeys(base, role, routable, rank, load, pr)
             && Keyed(base, load) && Ordered(base, rank, load, perm, |base|)
    requires forall id | id in pr :: pr[id] < UNROUTABLE
    requires i < j < |perm|
    ensures var base := RoleList(role);
            var (a, b) := (base[perm[i]], base[perm[j]]);
            && (a.overflow ==> b.overflow && perm[i] < perm[j])
            && rank[a.id] <= rank[b.id]
            && (rank[a.id] == rank[b.id] ==>
                  && (b.id in routable ==> a.id in routable && pr[a.id] <= pr[b.id])
                  && (a.id !in routable || (b.id in routable && pr[a.id] == pr[b.id]) ==> perm[i] < perm[j]))
  {
    RankOfEntry(role, routable, rank, load, pr, perm[i]);
    RankOfEntry(role, routable, rank, load, pr, perm[j]);
    assert Goes(RoleList(role), rank, load, perm[i], perm[j]);
    hide Rank, Covered;
  }

  /** Where the entry now at i stood before the promotion. */
  function OldPlace(moved: Option<nat>, i: nat): nat {
    if moved.None? || i > moved.value then i else if i == 0 then moved.value else i - 1
  }

  lemma MovedFrom(order: seq<Candidate>, moved: Option<nat>, i: nat)
    requires (moved.Some? ==> moved.value < |order|) && i < |order|
    ensures var out := if moved.None? then order else MoveToFront(order, moved.value);
            |out| == |order| && OldPlace(moved, i) < |order| && out[i] == order[OldPlace(moved, i)]
  {
  }

  /** After the promotion too: no overflow ahead of a candidate; and of any two entries the first of which was
      not the promoted one, the order is the balanced one. */
  lemma FinalOrder(role: Role, routable: set<string>, rank: map<string, int>, load: map<string, int>, pr: map<string, int>,
                   perm: seq<nat>, moved: Option<nat>, i: nat, j: nat)
    requires var base := RoleList(role);
             DistinctIds(base) && SortKeys(base, role, routable, rank, load, pr)
             && Keyed(base, load) && Ordered(base, rank, load, perm, |base|)
    requires forall id | id in pr :: pr[id] < UNROUTABLE
    requires i < j < |perm|
    requires var sorted := Image(RoleList(role), perm);
             Keyed(sorted, rank) && Keyed(sorted, load) && Keyed(sorted, pr) && Promotes(sorted, rank, load, pr, moved)
    ensures var sorted := Image(RoleList(role), perm);
            var out := if moved.None? then sorted else MoveToFront(sorted, moved.value);
            && (out[i].overflow ==> out[j].overflow)
            && out[i] == sorted[OldPlace(moved, i)] && out[j] == sorted[OldPlace(moved, j)]
            && (moved.None? || i > 0 ==> OldPlace(moved, i) < OldPlace(moved, j))
  {
    hide SortKeys, Ordered, Keyed, DistinctIds, RoleList, MoveToFront, Promotable, Jammed;
    var (base, sorted) := (RoleList(role), Image(RoleList(role), perm));
    MovedFrom(sorted, moved, i);
    MovedFrom(sorted, moved, j);
    var (a, b) := (OldPlace(moved, i), OldPlace(moved, j));
    if moved.Some? && i == 0 {
      PromotedKeepsSide(sorted, rank, load, pr, moved.value);
      if b > 0 {
        BalancedOrder(role, routable, rank, load, pr, perm, 0, b);
      }
    } else {
      BalancedOrder(role, routable, rank, load, pr, perm, a, b);
    }
  }

  lemma PromotedKeepsSide(order: seq<Candidate>, rank: map<string, int>, load: map<string, int>, pr: map<string, int>, k: nat)
    requires Keyed(order, rank) && Keyed(order, load) && Keyed(order, pr) && 0 < k < |order| && Promotable(order, rank, load, pr, k)
    ensures order[k].overflow == order[0].overflow
  {
  }
}
