/** One replica mirroring another: subscribe, then snapshot, then stream, into the mirror's own broker
    (internal/router/dashboard_events.go, internal/router/peers.go), as a protocol whose steps interleave
    in any way. */
module Peers {
  import opened Events
  import Sorting

  // ----- the mirror's side --------------------------------------------------------------

  /** The events the peer handled itself: of its own name, or of none, which then gets that name. */
  function Own(name: string, evs: seq<Event>): seq<Event> {
    if evs == [] then []
    else
      var rest := Own(name, evs[..|evs| - 1]);
      var e := evs[|evs| - 1];
      if e.replica == "" then rest + [e.(replica := name)]
      else if e.replica == name then rest + [e]
      else rest
  }

  /** Another replica's event: named, and not by this name. */
  predicate SecondHand(name: string, e: Event) {
    e.replica != "" && e.replica != name
  }

  function FirstHand(name: string): Event -> bool {
    e => !SecondHand(name, e)
  }

  function Named(name: string): Event -> Event {
    (e: Event) => e.(replica := name)
  }

  /** What is kept: every event that is not second-hand, in the order they came, now under the peer's name and
      otherwise as it was. */
  lemma {:induction false} OwnExactly(name: string, evs: seq<Event>)
    ensures Sorting.Filtered(evs, FirstHand(name), Named(name), Own(name, evs))
  {
    hide Sorting.Filtered;
    if evs == [] {
      Sorting.NothingFiltered(FirstHand(name), Named(name));
    } else {
      var (front, e) := (evs[..|evs| - 1], evs[|evs| - 1]);
      OwnExactly(name, front);
      Sorting.FilterOneMore(front, FirstHand(name), Named(name), Own(name, front), e);
      assert evs == front + [e];
    }
  }

  datatype Frame = Snapshot(recent: seq<Event>, open: seq<Event>) | Request(e: Event) | OtherFrame

  /** What a frame makes of the mirror; its broker has no name of its own to stamp. */
  function Mirrored(h: Held, f: Frame, name: string, capacity: nat, now: int): Held {
    match f
    case Snapshot(recent, open) => Held(Last(Own(name, recent), capacity), ByRequest(Own(name, open)))
    case Request(e) => if Own(name, [e]) == [] then h else Add(h, Stamped(Own(name, [e])[0], "", now), capacity)
    case OtherFrame => h
  }

  method KeepOwn(name: string, evs: seq<Event>) returns (out: seq<Event>)
    ensures out == Own(name, evs)
  {
    out := [];
    for i := 0 to |evs|
      invariant out == Own(name, evs[..i])
    {
      assert evs[..i + 1][..i] == evs[..i];
      var e := evs[i];
      if e.replica == "" {
        out := out + [e.(replica := name)];
      } else if e.replica == name {
        out := out + [e];
      }
    }
    assert evs[..|evs|] == evs;
  }

  method ApplyFrame(b: Broker, name: string, f: Frame, now: int)
    requires b.Sound() && b.local == "" && forall s | s in b.subs :: s.Accounted()
    modifies b`head, b`full, b`inflight, b.ring, b.subs
    ensures b.Sound() && b.Holds() == Mirrored(old(b.Holds()), f, name, b.ring.Length, now)
    ensures forall s | s in b.subs :: s.Accounted()
  {
    hide RingSeq, Last, ByRequest;
    match f {
      case Snapshot(recent, open) =>
        var ownRecent := KeepOwn(name, recent);
        var ownOpen := KeepOwn(name, open);
        b.Reset(ownRecent, ownOpen);
      case Request(e) =>
        var own := KeepOwn(name, [e]);
        if own != [] {
          b.Publish(own[0], now);
        }
      case OtherFrame =>
    }
  }

  // ----- the source's side --------------------------------------------------------------

  /** Sorting by time is stable, so it leaves alone what is in order already. */
  function Placed(xs: seq<Event>, e: Event): seq<Event> {
    if xs == [] || xs[|xs| - 1].ts <= e.ts then xs + [e]
    else Placed(xs[..|xs| - 1], e) + [xs[|xs| - 1]]
  }

  function ByTime(xs: seq<Event>): seq<Event> {
    if xs == [] then [] else Placed(ByTime(xs[..|xs| - 1]), xs[|xs| - 1])
  }

  const SNAPSHOT_LIMIT := 500

  /** The recent past as a snapshot tells it. */
  function Recent(log: seq<Event>, capacity: nat): seq<Event> {
    Last(ByTime(Last(log, capacity)), SNAPSHOT_LIMIT)
  }

  /** A snapshot tells what the ring holds, at most its last five hundred by time. */
  lemma RecentSize(log: seq<Event>, capacity: nat)
    ensures |Recent(log, capacity)| == Min(500, Min(capacity, |log|))
    ensures forall e | e in Recent(log, capacity) :: e in log
  {
    var held := Last(log, capacity);
    ByTimeMembers(held);
    assert |ByTime(held)| == |multiset(ByTime(held))| == |multiset(held)|;
    forall e | e in Recent(log, capacity)
      ensures e in log
    {
      assert e in ByTime(held);
      assert e in multiset(ByTime(held));
      assert e in held;
    }
  }

  // ----- the protocol -------------------------------------------------------------------

  /** The source's ring, the mirror's ring, the depth of the subscription, the source's name. */
  datatype Setup = Setup(source: nat, mirror: nat, depth: nat, name: string)

  /** How far a connection has come. Positions are positions of the source's log: where it subscribed,
      where its open requests were listed, where its ring was read, how far the stream has been sent and
      delivered. */
  datatype Conn =
    | Down
    | Subscribed(from: nat)
    | Listed(from: nat, listedAt: nat, open: seq<Event>)
    | Streaming(from: nat, listedAt: nat, open: seq<Event>, ringAt: nat, greeted: bool, delivered: nat, sent: nat)

  /** log is everything the source ever published. */
  datatype World = World(log: seq<Event>, queue: seq<Event>, dropped: nat, wire: seq<Frame>, conn: Conn, mirror: Held)

  datatype Step =
    | Publishes(e: Event)
    | Connects
    | ListsOpen(open: seq<Event>)
    | SendsSnapshot
    | Sends
    | Delivers(now: int)
    | Breaks

  /** What the source's broker can answer when asked for its open requests. */
  ghost predicate ListsInFlight(log: seq<Event>, open: seq<Event>) {
    ByRequest(open) == TrackAll(map[], log) && OldestFirst(open) && forall e | e in open :: e in log
  }

  ghost predicate Can(u: Setup, w: World, s: Step) {
    match s
    case Publishes(e) => e.replica == u.name && e.ts != 0
    case Connects => w.conn.Down?
    case ListsOpen(open) => w.conn.Subscribed? && ListsInFlight(w.log, open)
    case SendsSnapshot => w.conn.Listed?
    case Sends => w.conn.Streaming? && w.queue != []
    case Delivers(_) => w.conn.Streaming? && w.wire != []
    case Breaks => !w.conn.Down?
  }

  function Do(u: Setup, w: World, s: Step): World {
    match s
    case Publishes(e) =>
      var more := w.(log := w.log + [e]);
      if w.conn.Down? then more
      else if |w.queue| < u.depth then more.(queue := w.queue + [e])
      else more.(dropped := w.dropped + 1)
    case Connects => w.(conn := Subscribed(|w.log|), queue := [], dropped := 0, wire := [])
    case ListsOpen(open) => if w.conn.Subscribed? then w.(conn := Listed(w.conn.from, |w.log|, open)) else w
    case SendsSnapshot =>
      if w.conn.Listed? then
        var c := w.conn;
        w.(conn := Streaming(c.from, c.listedAt, c.open, |w.log|, false, c.from, c.from), wire := [Snapshot(Recent(w.log, u.source), c.open)])
      else w
    case Sends =>
      if w.conn.Streaming? && w.queue != [] then
        w.(queue := w.queue[1..], wire := w.wire + [Request(w.queue[0])], conn := w.conn.(sent := w.conn.sent + 1))
      else w
    case Delivers(now) =>
      if w.conn.Streaming? && w.wire != [] then
        w.(wire := w.wire[1..], mirror := Mirrored(w.mirror, w.wire[0], u.name, u.mirror, now),
           conn := if w.conn.greeted then w.conn.(delivered := w.conn.delivered + 1) else w.conn.(greeted := true))
      else w
    case Breaks => w.(conn := Down, queue := [], dropped := 0, wire := [], mirror := Held(w.mirror.ring, map[]))
  }

  ghost predicate Reached(u: Setup, run: seq<World>, steps: seq<Step>) {
    && |run| == |steps| + 1
    && run[0] == World([], [], 0, [], Down, Held([], map[]))
    && forall i | 0 <= i < |steps| :: Can(u, run[i], steps[i]) && run[i + 1] == Do(u, run[i], steps[i])
  }

  // ----- replaying over a snapshot ------------------------------------------------------

  /** Two sets of open requests say the same of one request. */
  predicate Same(a: map<string, Event>, b: map<string, Event>, id: string) {
    (id in a <==> id in b) && (id in a ==> a[id] == b[id])
  }

  predicate Mentions(log: seq<Event>, id: string) {
    exists i :: 0 <= i < |log| && log[i].id == id && id != "" && !log[i].kind.OtherKind?
  }

  /** What a stretch of the log says of a request it mentions does not depend on what was open before;
      what it does not mention stays as it was. */
  lemma {:induction false} TrackAt(open: map<string, Event>, other: map<string, Event>, log: seq<Event>, id: string)
    ensures if Mentions(log, id) then Same(TrackAll(open, log), TrackAll(other, log), id) else Same(TrackAll(open, log), open, id)
  {
    if log != [] {
      var (front, e) := (log[..|log| - 1], log[|log| - 1]);
      TrackAt(open, other, front, id);
      if Mentions(front, id) {
        var i :| 0 <= i < |front| && front[i].id == id && id != "" && !front[i].kind.OtherKind?;
        assert log[i] == front[i];
      }
      if e.id == id && id != "" && !e.kind.OtherKind? {
        assert log[|log| - 1].id == id;
      }
    }
  }

  lemma {:induction false} TrackAppend(open: map<string, Event>, a: seq<Event>, b: seq<Event>)
    ensures TrackAll(open, a + b) == TrackAll(TrackAll(open, a), b)
  {
    if b == [] {
      assert a + b == a;
    } else {
      TrackAppend(open, a, b[..|b| - 1]);
      assert (a + b)[..|a + b| - 1] == a + b[..|b| - 1];
    }
  }

  /** A snapshot taken anywhere after the subscription, with everything since the subscription replayed
      over it, ends where the source is. */
  lemma CatchUp(log: seq<Event>, from: nat, at: nat, to: nat)
    requires from <= at <= to <= |log|
    ensures TrackAll(TrackAll(map[], log[..at]), log[from..to]) == TrackAll(map[], log[..to])
  {
    var (a, b) := (TrackAll(TrackAll(map[], log[..at]), log[from..to]), TrackAll(map[], log[..to]));
    forall id: string
      ensures Same(a, b, id)
    {
      CatchUpAt(log, from, at, to, id);
    }
    hide TrackAll;
    SameEverywhere(a, b);
  }

  lemma SameEverywhere(a: map<string, Event>, b: map<string, Event>)
    requires forall id: string :: Same(a, b, id)
    ensures a == b
  {
    forall id: string
      ensures (id in a <==> id in b) && (id in a ==> a[id] == b[id])
    {
      assert Same(a, b, id);
    }
  }

  lemma CatchUpAt(log: seq<Event>, from: nat, at: nat, to: nat, id: string)
    requires from <= at <= to <= |log|
    ensures Same(TrackAll(TrackAll(map[], log[..at]), log[from..to]), TrackAll(map[], log[..to]), id)
  {
    hide TrackAll;
    var start := TrackAll(map[], log[..from]);
    assert log[..to] == log[..from] + log[from..to];
    assert log[..at] == log[..from] + log[from..at];
    TrackAppend(map[], log[..from], log[from..to]);
    TrackAppend(map[], log[..from], log[from..at]);
    TrackAt(TrackAll(map[], log[..at]), start, log[from..to], id);
    TrackAt(start, start, log[from..at], id);
    TrackAt(start, start, log[from..to], id);
    NotMentionedEarlier(log, from, at, to, id);
    hide Mentions;
  }

  lemma NotMentionedEarlier(log: seq<Event>, from: nat, at: nat, to: nat, id: string)
    requires from <= at <= to <= |log|
    ensures Mentions(log[from..at], id) ==> Mentions(log[from..to], id)
  {
    if Mentions(log[from..at], id) {
      var i :| 0 <= i < |log[from..at]| && log[from..at][i].id == id && id != "" && !log[from..at][i].kind.OtherKind?;
      assert log[from..to][i] == log[from..at][i];
    }
  }

  // ----- what every interleaving keeps --------------------------------------------------

  function Requests(evs: seq<Event>): seq<Frame> {
    seq(|evs|, i requires 0 <= i < |evs| => Request(evs[i]))
  }

  predicate Loyal(name: string, evs: seq<Event>) {
    forall e | e in evs :: e.replica == name && e.ts != 0
  }

  ghost predicate OpenAt(log: seq<Event>, at: nat, open: seq<Event>)
    requires at <= |log|
  {
    ByRequest(open) == TrackAll(map[], log[..at]) && forall e | e in open :: e in log
  }

  /** The mirror after the snapshot and the stream up to a position. */
  function MirrorAt(u: Setup, log: seq<Event>, from: nat, open: seq<Event>, ringAt: nat, to: nat): Held
    requires from <= to <= |log| && ringAt <= |log|
  {
    Held(RingAt(u, log, from, ringAt, to), TrackAll(ByRequest(open), log[from..to]))
  }

  function RingAt(u: Setup, log: seq<Event>, from: nat, ringAt: nat, to: nat): seq<Event>
    requires from <= to <= |log| && ringAt <= |log|
  {
    Last(Last(Recent(log[..ringAt], u.source), u.mirror) + log[from..to], u.mirror)
  }

  /** Positions are in order, and what was published since the subscription is queued, sent or dropped. */
  ghost predicate InOrder(w: World) {
    match w.conn
    case Down => true
    case Subscribed(from) => from + |w.queue| + w.dropped == |w.log|
    case Listed(from, at, _) => from <= at <= |w.log| && from + |w.queue| + w.dropped == |w.log|
    case Streaming(from, at, _, ringAt, greeted, delivered, sent) =>
      && from <= at <= ringAt <= |w.log| && from <= delivered <= sent
      && sent + |w.queue| + w.dropped == |w.log|
      && |w.wire| == sent - delivered + (if greeted then 0 else 1)
      && (!greeted ==> delivered == from)
  }

  /** As long as nothing was dropped, the queue, the wire and the mirror together are the source's log. */
  ghost predicate InStep(u: Setup, w: World)
    requires InOrder(w)
  {
    match w.conn
    case Down => true
    case Subscribed(from) => w.queue == w.log[from..]
    case Listed(from, at, open) => w.queue == w.log[from..] && OpenAt(w.log, at, open)
    case Streaming(from, at, open, ringAt, greeted, delivered, sent) =>
      && w.queue == w.log[sent..] && OpenAt(w.log, at, open)
      && w.wire == (if greeted then [] else [Snapshot(Recent(w.log[..ringAt], u.source), open)]) + Requests(w.log[delivered..sent])
      && (greeted ==> w.mirror == MirrorAt(u, w.log, from, open, ringAt, delivered))
  }

  ghost predicate Inv(u: Setup, w: World) {
    Loyal(u.name, w.log) && InOrder(w) && (w.dropped == 0 ==> InStep(u, w))
  }

  lemma {:induction false} OwnKeepsLoyal(name: string, evs: seq<Event>)
    requires Loyal(name, evs)
    ensures Own(name, evs) == evs
  {
    if evs != [] {
      OwnKeepsLoyal(name, evs[..|evs| - 1]);
      assert evs == evs[..|evs| - 1] + [evs[|evs| - 1]];
    }
  }

  lemma {:induction false} PlacedMembers(xs: seq<Event>, e: Event)
    ensures multiset(Placed(xs, e)) == multiset(xs) + multiset{e}
  {
    if xs != [] {
      PlacedMembers(xs[..|xs| - 1], e);
      assert xs == xs[..|xs| - 1] + [xs[|xs| - 1]];
    }
  }

  lemma {:induction false} ByTimeMembers(xs: seq<Event>)
    ensures multiset(ByTime(xs)) == multiset(xs)
  {
    if xs != [] {
      ByTimeMembers(xs[..|xs| - 1]);
      PlacedMembers(ByTime(xs[..|xs| - 1]), xs[|xs| - 1]);
      assert xs == xs[..|xs| - 1] + [xs[|xs| - 1]];
    }
  }

  lemma RecentIsLoyal(name: string, log: seq<Event>, capacity: nat)
    requires Loyal(name, log)
    ensures Loyal(name, Recent(log, capacity))
  {
    var tail := Last(log, capacity);
    ByTimeMembers(tail);
    forall e | e in ByTime(tail)
      ensures e in log
    {
      assert e in multiset(ByTime(tail));
      assert e in multiset(tail);
    }
    hide ByTime;
  }

  // ----- step by step -------------------------------------------------------------------

  lemma PublishKeeps(u: Setup, w: World, e: Event)
    requires Inv(u, w) && Can(u, w, Publishes(e))
    ensures Inv(u, Do(u, w, Publishes(e)))
  {
    hide Recent, ByRequest, TrackAll, Last;
    var more := w.log + [e];
    if w.dropped == 0 && !w.conn.Down? && |w.queue| < u.depth {
      assert forall k | 0 <= k <= |w.log| :: more[..k] == w.log[..k];
      if w.conn.Streaming? {
        var c := w.conn;
        assert more[c.sent..] == w.log[c.sent..] + [e];
        assert more[c.delivered..c.sent] == w.log[c.delivered..c.sent];
        assert more[c.from..c.delivered] == w.log[c.from..c.delivered];
      } else {
        assert more[w.conn.from..] == w.log[w.conn.from..] + [e];
      }
    }
  }

  lemma ListKeeps(u: Setup, w: World, open: seq<Event>)
    requires Inv(u, w) && Can(u, w, ListsOpen(open))
    ensures Inv(u, Do(u, w, ListsOpen(open)))
  {
    hide ByRequest, TrackAll;
    assert w.log[..|w.log|] == w.log;
  }

  lemma SnapshotKeeps(u: Setup, w: World)
    requires Inv(u, w) && Can(u, w, SendsSnapshot)
    ensures Inv(u, Do(u, w, SendsSnapshot))
  {
    hide Recent, ByRequest, TrackAll;
    assert w.log[..|w.log|] == w.log;
    assert w.log[w.conn.from..w.conn.from] == [];
  }

  lemma SendKeeps(u: Setup, w: World)
    requires Inv(u, w) && Can(u, w, Sends)
    ensures Inv(u, Do(u, w, Sends))
  {
    hide Recent, ByRequest, TrackAll, Last;
    var c := w.conn;
    if w.dropped == 0 {
      assert w.queue[0] == w.log[c.sent];
      assert w.log[c.delivered..c.sent + 1] == w.log[c.delivered..c.sent] + [w.log[c.sent]];
      assert Requests(w.log[c.delivered..c.sent + 1]) == Requests(w.log[c.delivered..c.sent]) + [Request(w.log[c.sent])];
    }
  }

  lemma DeliverKeeps(u: Setup, w: World, now: int)
    requires Inv(u, w) && Can(u, w, Delivers(now))
    ensures Inv(u, Do(u, w, Delivers(now)))
  {
    if w.dropped == 0 {
      if w.conn.greeted {
        DeliverEvent(u, w, now);
      } else {
        DeliverSnapshot(u, w, now);
      }
    }
  }

  lemma DeliverSnapshot(u: Setup, w: World, now: int)
    requires Inv(u, w) && Can(u, w, Delivers(now)) && w.dropped == 0 && !w.conn.greeted
    ensures InOrder(Do(u, w, Delivers(now))) && InStep(u, Do(u, w, Delivers(now)))
  {
    hide Recent, ByRequest, Last;
    var c := w.conn;
    RecentIsLoyal(u.name, w.log[..c.ringAt], u.source);
    OwnKeepsLoyal(u.name, Recent(w.log[..c.ringAt], u.source));
    OwnKeepsLoyal(u.name, c.open);
    assert w.log[c.from..c.delivered] == [];
    LastTwice(Recent(w.log[..c.ringAt], u.source), u.mirror);
  }

  lemma LastTwice(xs: seq<Event>, n: nat)
    ensures Last(Last(xs, n) + [], n) == Last(xs, n)
  {
  }

  lemma DeliverEvent(u: Setup, w: World, now: int)
    requires Inv(u, w) && Can(u, w, Delivers(now)) && w.dropped == 0 && w.conn.greeted
    ensures InOrder(Do(u, w, Delivers(now))) && InStep(u, Do(u, w, Delivers(now)))
  {
    hide Mirrored, MirrorAt, Recent, ByRequest, TrackAll;
    var c := w.conn;
    var e := w.log[c.delivered];
    var rest := w.log[c.delivered + 1..c.sent];
    assert w.log[c.delivered..c.sent] == [e] + rest;
    assert Requests([e] + rest) == [Request(e)] + Requests(rest);
    MirrorMore(u, w.log, c.from, c.open, c.ringAt, c.delivered, now);
  }

  lemma MirrorMore(u: Setup, log: seq<Event>, from: nat, open: seq<Event>, ringAt: nat, to: nat, now: int)
    requires from <= to < |log| && ringAt <= |log| && Loyal(u.name, log)
    ensures Mirrored(MirrorAt(u, log, from, open, ringAt, to), Request(log[to]), u.name, u.mirror, now) ==
            MirrorAt(u, log, from, open, ringAt, to + 1)
  {
    hide Recent, ByRequest, Last, Track;
    var e := log[to];
    assert e in log;
    OwnKeepsLoyal(u.name, [e]);
    var passed := log[from..to];
    assert log[from..to + 1] == passed + [e];
    assert (passed + [e])[..|passed|] == passed;
    LastMore(Last(Recent(log[..ringAt], u.source), u.mirror), passed, e, u.mirror);
    hide Own;
  }

  lemma LastMore(start: seq<Event>, xs: seq<Event>, e: Event, n: nat)
    ensures Last(Last(start + xs, n) + [e], n) == Last(start + (xs + [e]), n)
  {
    assert start + (xs + [e]) == (start + xs) + [e];
  }

  lemma StepKeeps(u: Setup, w: World, s: Step)
    requires Inv(u, w) && Can(u, w, s)
    ensures Inv(u, Do(u, w, s))
  {
    match s
    case Publishes(e) => PublishKeeps(u, w, e);
    case Connects => assert w.log[|w.log|..] == [];
    case ListsOpen(open) => ListKeeps(u, w, open);
    case SendsSnapshot => SnapshotKeeps(u, w);
    case Sends => SendKeeps(u, w);
    case Delivers(now) => DeliverKeeps(u, w, now);
    case Breaks =>
  }

  lemma {:induction false} ReachedKeeps(u: Setup, run: seq<World>, steps: seq<Step>, n: nat)
    requires Reached(u, run, steps) && n < |run|
    ensures Inv(u, run[n])
    decreases n
  {
    if n > 0 {
      ReachedKeeps(u, run, steps, n - 1);
      assert Can(u, run[n - 1], steps[n - 1]) && run[n] == Do(u, run[n - 1], steps[n - 1]);
      hide Inv, Can, Do;
      StepKeeps(u, run[n - 1], steps[n - 1]);
    }
  }

  // ----- where the mirror ends up -------------------------------------------------------

  /** In every interleaving, whatever earlier connections lost: once the stream of a connection without
      drops has passed the point where the open requests were listed, the mirror's open requests are the
      source's as of the last event delivered. */
  lemma MirrorConverges(u: Setup, run: seq<World>, steps: seq<Step>, n: nat)
    requires Reached(u, run, steps) && n < |run|
    requires var w := run[n];
             w.conn.Streaming? && w.conn.greeted && w.dropped == 0 && w.conn.delivered >= w.conn.listedAt
    ensures var w := run[n]; w.conn.delivered <= |w.log| && w.mirror.inflight == TrackAll(map[], w.log[..w.conn.delivered])
  {
    ReachedKeeps(u, run, steps, n);
    hide Reached, Recent, ByRequest, Last, Loyal;
    var w := run[n];
    CatchUp(w.log, w.conn.from, w.conn.listedAt, w.conn.delivered);
    hide TrackAll;
  }

  /** With nothing left on the way, that is the source's present. */
  lemma CaughtUpIsEqual(u: Setup, run: seq<World>, steps: seq<Step>, n: nat)
    requires Reached(u, run, steps) && n < |run|
    requires var w := run[n]; w.conn.Streaming? && w.conn.greeted && w.dropped == 0 && w.queue == [] && w.wire == []
    ensures run[n].mirror.inflight == TrackAll(map[], run[n].log)
  {
    hide Reached, TrackAll, InStep, Loyal;
    ReachedKeeps(u, run, steps, n);
    MirrorConverges(u, run, steps, n);
    var w := run[n];
    assert w.log[..|w.log|] == w.log;
  }

  /** In the words of the log: a mirror that has caught up shows a request open exactly if the last thing the
      source published about it was its start, and what it shows is that event. */
  lemma MirrorShowsOpen(u: Setup, run: seq<World>, steps: seq<Step>, n: nat, id: string)
    requires Reached(u, run, steps) && n < |run|
    requires var w := run[n]; w.conn.Streaming? && w.conn.greeted && w.dropped == 0 && w.queue == [] && w.wire == []
    ensures var (log, open) := (run[n].log, run[n].mirror.inflight);
            && (id in open <==> exists k :: LastTold(log, id, k) && log[k].kind.Started?)
            && (forall k | LastTold(log, id, k) && log[k].kind.Started? :: open[id] == log[k])
  {
    hide Reached, TrackAll, LastTold;
    CaughtUpIsEqual(u, run, steps, n);
    OpenExactly(run[n].log, id);
  }

  /** Queued plus dropped plus sent is what was published since the subscription, at every moment. */
  lemma NothingUnaccounted(u: Setup, run: seq<World>, steps: seq<Step>, n: nat)
    requires Reached(u, run, steps) && n < |run| && run[n].conn.Streaming?
    ensures var (w, c) := (run[n], run[n].conn);
            (c.sent - c.from) + |w.queue| + w.dropped == |w.log| - c.from && c.delivered <= c.sent
  {
    ReachedKeeps(u, run, steps, n);
    hide Reached, InStep, Loyal;
  }

  // ----- the mirror's ring --------------------------------------------------------------

  predicate Precedes(xs: seq<Event>, i: nat, j: nat)
    requires i < |xs| && j < |xs|
  {
    xs[i].ts < xs[j].ts || (xs[i].ts == xs[j].ts && i < j)
  }

  /** out is xs by time, equal times in list order; at[q] is the place out[q] came from. */
  ghost predicate Sorts(xs: seq<Event>, out: seq<Event>, at: seq<nat>) {
    && |at| == |out| == |xs|
    && (forall q | 0 <= q < |at| :: at[q] < |xs| && out[q] == xs[at[q]])
    && (forall q, r | 0 <= q < r < |at| :: Precedes(xs, at[q], at[r]))
    && (forall i: nat | i < |xs| :: i in at)
  }

  lemma {:induction false} PlacedWhere(ys: seq<Event>, e: Event) returns (q: nat)
    ensures q <= |ys| && Placed(ys, e) == ys[..q] + [e] + ys[q..]
    ensures (q > 0 ==> ys[q - 1].ts <= e.ts) && forall r | q <= r < |ys| :: ys[r].ts > e.ts
  {
    if ys == [] || ys[|ys| - 1].ts <= e.ts {
      q := |ys|;
    } else {
      var front := ys[..|ys| - 1];
      q := PlacedWhere(front, e);
      assert ys == front + [ys[|ys| - 1]];
      assert front[q..] + [ys[|ys| - 1]] == ys[q..];
      assert front[..q] == ys[..q];
    }
  }

  lemma {:induction false} ByTimeSorts(xs: seq<Event>) returns (at: seq<nat>)
    ensures Sorts(xs, ByTime(xs), at)
  {
    hide Sorts, Placed;
    if xs == [] {
      at := [];
      NothingSorts();
    } else {
      var (front, e) := (xs[..|xs| - 1], xs[|xs| - 1]);
      var early := ByTimeSorts(front);
      var out := ByTime(front);
      assert ByTime(xs) == Placed(out, e);
      hide ByTime;
      var q := PlacedWhere(out, e);
      at := Inserted(early, |front|, Min(q, |early|));
      SortedLength(front, out, early);
      SortsMore(front, out, early, e, q);
      InsertedIs(out, e, q);
      assert xs == front + [e];
    }
  }

  lemma NothingSorts()
    ensures Sorts([], [], [])
  {
  }

  lemma SortedLength(xs: seq<Event>, out: seq<Event>, at: seq<nat>)
    requires Sorts(xs, out, at)
    ensures |at| == |out| == |xs|
  {
  }

  function Inserted<T>(xs: seq<T>, x: T, q: nat): (ys: seq<T>)
    requires q <= |xs|
    ensures |ys| == |xs| + 1
    ensures forall r | 0 <= r < |ys| :: ys[r] == if r < q then xs[r] else if r == q then x else xs[r - 1]
  {
    xs[..q] + [x] + xs[q..]
  }

  lemma InsertedIs<T>(xs: seq<T>, x: T, q: nat)
    requires q <= |xs|
    ensures Inserted(xs, x, q) == xs[..q] + [x] + xs[q..]
  {
  }

  lemma SortsMore(xs: seq<Event>, out: seq<Event>, at: seq<nat>, e: Event, q: nat)
    requires Sorts(xs, out, at) && q <= |out|
    requires (q > 0 ==> out[q - 1].ts <= e.ts) && forall r | q <= r < |out| :: out[r].ts > e.ts
    ensures Sorts(xs + [e], Inserted(out, e, q), Inserted(at, |xs|, q))
  {
    InsertedValues(xs, out, at, e, q);
    InsertedAll(xs, out, at, e, q);
    InsertedOrder(xs, out, at, e, q);
    hide Inserted, Precedes;
  }

  lemma InsertedAll(xs: seq<Event>, out: seq<Event>, at: seq<nat>, e: Event, q: nat)
    requires Sorts(xs, out, at) && q <= |out|
    ensures forall i: nat | i < |xs + [e]| :: i in Inserted(at, |xs|, q)
  {
    forall i: nat | i < |xs + [e]|
      ensures i in Inserted(at, |xs|, q)
    {
      InsertedCovers(at, |xs|, q);
      assert i < |xs| ==> i in at;
    }
  }

  lemma InsertedOrder(xs: seq<Event>, out: seq<Event>, at: seq<nat>, e: Event, q: nat)
    requires Sorts(xs, out, at) && q <= |out|
    requires (q > 0 ==> out[q - 1].ts <= e.ts) && forall r | q <= r < |out| :: out[r].ts > e.ts
    ensures var to := Inserted(at, |xs|, q);
            forall r, t | 0 <= r < t < |to| :: to[r] < |xs + [e]| && to[t] < |xs + [e]| && Precedes(xs + [e], to[r], to[t])
  {
    var to := Inserted(at, |xs|, q);
    forall r, t | 0 <= r < t < |to|
      ensures to[r] < |xs + [e]| && to[t] < |xs + [e]| && Precedes(xs + [e], to[r], to[t])
    {
      InsertedInOrder(xs, out, at, e, q, r, t);
    }
  }

  lemma InsertedValues(xs: seq<Event>, out: seq<Event>, at: seq<nat>, e: Event, q: nat)
    requires Sorts(xs, out, at) && q <= |out|
    ensures var (put, to) := (Inserted(out, e, q), Inserted(at, |xs|, q));
            forall r | 0 <= r < |to| :: to[r] < |xs + [e]| && put[r] == (xs + [e])[to[r]]
  {
  }

  lemma InsertedCovers(at: seq<nat>, x: nat, q: nat)
    requires q <= |at|
    ensures x in Inserted(at, x, q) && forall i | i in at :: i in Inserted(at, x, q)
  {
  }

  lemma InsertedInOrder(xs: seq<Event>, out: seq<Event>, at: seq<nat>, e: Event, q: nat, r: nat, t: nat)
    requires Sorts(xs, out, at) && q <= |out| && r < t <= |at|
    requires (q > 0 ==> out[q - 1].ts <= e.ts) && forall r | q <= r < |out| :: out[r].ts > e.ts
    ensures var to := Inserted(at, |xs|, q); to[r] <= |xs| && to[t] <= |xs| && Precedes(xs + [e], to[r], to[t])
  {
    if t == q {
      assert r == q - 1 || Precedes(xs, at[r], at[q - 1]);
    } else if r != q {
      assert Precedes(xs, at[if r < q then r else r - 1], at[if t < q then t else t - 1]);
    }
  }

  /** Where the part of the log begins that the snapshot's ring was read from. */
  function WindowStart(u: Setup, ringAt: nat): (start: nat)
    ensures start <= ringAt
  {
    if ringAt <= u.source then 0 else ringAt - u.source
  }

  /** No event of the ring that was published after start and before the subscription was followed, before
      the subscription, by one with an earlier time. */
  predicate NoneOvertaken(log: seq<Event>, start: nat, from: nat, ring: seq<Event>)
    requires from <= |log|
  {
    forall i, j | start <= i < j < from && log[i] in ring :: log[i].ts <= log[j].ts
  }

  predicate Distinct(log: seq<Event>) {
    forall i, j | 0 <= i < j < |log| :: log[i] != log[j]
  }

  /** The same events as log[j..p]. */
  ghost predicate IsStretch(log: seq<Event>, j: int, p: nat, evs: seq<Event>) {
    0 <= j <= p <= |log| && forall e :: e in evs <==> e in log[j..p]
  }

  /** Taken as a set, these events are a gap-free stretch of the log that ends at p. */
  ghost predicate IsTail(log: seq<Event>, p: nat, evs: seq<Event>) {
    exists j :: IsStretch(log, j, p, evs)
  }

  function Min(a: nat, b: nat): (m: nat)
    ensures m <= a && m <= b
  {
    if a <= b then a else b
  }

  /** How much of the sorted window the ring has let go of by p. */
  function Gone(u: Setup, size: nat, from: nat, p: nat): nat
    requires from <= p
  {
    var kept := Min(size, Min(SNAPSHOT_LIMIT, u.mirror));
    var pushed := size + (p - from) - u.mirror;
    if pushed > size - kept then pushed else size - kept
  }

  lemma RingShape(u: Setup, log: seq<Event>, from: nat, ringAt: nat, p: nat)
    requires from <= p <= |log| && ringAt <= |log|
    ensures var sorted := ByTime(log[WindowStart(u, ringAt)..ringAt]);
            RingAt(u, log, from, ringAt, p) ==
            if p - from <= u.mirror then
              sorted[Min(|sorted|, Gone(u, |sorted|, from, p))..] + log[from..p]
            else log[p - u.mirror..p]
  {
    hide ByTime, WindowStart, Last, Recent;
    var sorted := ByTime(log[WindowStart(u, ringAt)..ringAt]);
    var d := |sorted| - Min(|sorted|, Min(SNAPSHOT_LIMIT, u.mirror));
    WindowShape(u, log, ringAt);
    LastOfPair(sorted[d..], log[from..p], u.mirror);
    if p - from <= u.mirror {
      var g := Gone(u, |sorted|, from, p);
      assert sorted[d..][g - d..] == sorted[g..];
    } else {
      assert log[from..p][p - from - u.mirror..] == log[p - u.mirror..p];
    }
  }

  lemma WindowShape(u: Setup, log: seq<Event>, ringAt: nat)
    requires ringAt <= |log|
    ensures var sorted := ByTime(log[WindowStart(u, ringAt)..ringAt]);
            Last(Recent(log[..ringAt], u.source), u.mirror) == sorted[|sorted| - Min(|sorted|, Min(SNAPSHOT_LIMIT, u.mirror))..]
  {
    hide ByTime;
    assert Last(log[..ringAt], u.source) == log[WindowStart(u, ringAt)..ringAt];
    LastOfLast(ByTime(log[WindowStart(u, ringAt)..ringAt]), SNAPSHOT_LIMIT, u.mirror);
  }

  lemma LastOfLast<T>(xs: seq<T>, m: nat, n: nat)
    ensures Last(Last(xs, m), n) == xs[|xs| - Min(|xs|, Min(m, n))..]
  {
  }

  lemma LastOfPair<T>(x: seq<T>, y: seq<T>, n: nat)
    ensures Last(x + y, n) ==
            if |y| > n then y[|y| - n..] else if |x| + |y| <= n then x + y else x[|x| + |y| - n..] + y
  {
  }

  lemma StretchOf(log: seq<Event>, j: nat, p: nat)
    requires j <= p <= |log|
    ensures IsTail(log, p, log[j..p])
  {
    assert IsStretch(log, j, p, log[j..p]);
  }

  lemma InStretch(log: seq<Event>, a: nat, b: nat, e: Event)
    requires a <= b <= |log|
    ensures e in log[a..b] <==> exists i :: a <= i < b && log[i] == e
  {
    if e in log[a..b] {
      var i :| 0 <= i < b - a && log[a..b][i] == e;
      assert log[a + i] == e;
    }
    forall i | a <= i < b && log[i] == e
      ensures e in log[a..b]
    {
      assert log[a..b][i - a] == e;
    }
  }

  /** Place i of the log, in the window [a, k), is among the sorted events from d on. */
  predicate Keeps(at: seq<nat>, d: nat, a: nat, i: nat)
    requires d <= |at|
  {
    exists q :: d <= q < |at| && a + at[q] == i
  }

  lemma KeptEvents(log: seq<Event>, a: nat, k: nat, sorted: seq<Event>, at: seq<nat>, d: nat, e: Event)
    requires a <= k <= |log| && Sorts(log[a..k], sorted, at) && d <= |sorted|
    ensures e in sorted[d..] <==> exists i: nat :: a <= i < k && Keeps(at, d, a, i) && log[i] == e
  {
    if e in sorted[d..] {
      KeptComesFrom(log, a, k, sorted, at, d, e);
    }
    if i: nat :| a <= i < k && Keeps(at, d, a, i) && log[i] == e {
      KeptIsThere(log, a, k, sorted, at, d, i);
    }
  }

  lemma KeptComesFrom(log: seq<Event>, a: nat, k: nat, sorted: seq<Event>, at: seq<nat>, d: nat, e: Event)
    requires a <= k <= |log| && Sorts(log[a..k], sorted, at) && d <= |sorted| && e in sorted[d..]
    ensures exists i: nat :: a <= i < k && Keeps(at, d, a, i) && log[i] == e
  {
    var t :| 0 <= t < |sorted[d..]| && sorted[d..][t] == e;
    assert sorted[d + t] == log[a..k][at[d + t]] == log[a + at[d + t]];
    assert Keeps(at, d, a, a + at[d + t]);
  }

  lemma KeptIsThere(log: seq<Event>, a: nat, k: nat, sorted: seq<Event>, at: seq<nat>, d: nat, i: nat)
    requires a <= i < k <= |log| && Sorts(log[a..k], sorted, at) && d <= |sorted| && Keeps(at, d, a, i)
    ensures log[i] in sorted[d..]
  {
    var q :| d <= q < |at| && a + at[q] == i;
    assert sorted[d..][q - d] == log[a..k][at[q]] == log[i];
  }

  /** What comes later in time order than a kept event is kept. */
  lemma LaterIsKept(log: seq<Event>, a: nat, k: nat, sorted: seq<Event>, at: seq<nat>, d: nat, i: nat, j: nat)
    requires a <= i < j < k <= |log| && Sorts(log[a..k], sorted, at) && d <= |at|
    requires Keeps(at, d, a, i) && log[i].ts <= log[j].ts
    ensures Keeps(at, d, a, j)
  {
    var q :| d <= q < |at| && a + at[q] == i;
    assert j - a in at;
    var r :| 0 <= r < |at| && at[r] == j - a;
    PlacesInOrder(log[a..k], sorted, at, q, r);
  }

  lemma PlacesInOrder(xs: seq<Event>, out: seq<Event>, at: seq<nat>, q: nat, r: nat)
    requires Sorts(xs, out, at) && q < |at| && r < |at| && Precedes(xs, at[q], at[r])
    ensures q < r
  {
    if r < q {
      LaterPrecedes(xs, out, at, r, q);
    }
  }

  lemma LaterPrecedes(xs: seq<Event>, out: seq<Event>, at: seq<nat>, q: nat, r: nat)
    requires Sorts(xs, out, at) && q < r < |at|
    ensures at[q] < |xs| && at[r] < |xs| && Precedes(xs, at[q], at[r])
  {
  }

  /** If nothing kept from before the subscription was overtaken, what is kept and what was streamed since
      is a gap-free tail. */
  lemma TailOfKept(log: seq<Event>, a: nat, from: nat, k: nat, p: nat, sorted: seq<Event>, at: seq<nat>, d: nat)
    requires a <= k && from <= k <= p <= |log| && Sorts(log[a..k], sorted, at) && d <= |sorted|
    requires NoneOvertaken(log, a, from, sorted[d..])
    ensures IsTail(log, p, sorted[d..] + log[from..p])
  {
    var j := from;
    while j > a && Keeps(at, d, a, j - 1)
      invariant 0 <= j <= from && forall i | j <= i < from :: a <= i && Keeps(at, d, a, i)
    {
      j := j - 1;
    }
    forall i: nat | a <= i < j && Keeps(at, d, a, i)
      ensures false
    {
      KeptEvents(log, a, k, sorted, at, d, log[i]);
      if i < j - 1 {
        LaterIsKept(log, a, k, sorted, at, d, i, j - 1);
      }
    }
    forall e
      ensures e in sorted[d..] + log[from..p] <==> e in log[j..p]
    {
      KeptEvents(log, a, k, sorted, at, d, e);
      InStretch(log, from, p, e);
      InStretch(log, j, p, e);
    }
    assert IsStretch(log, j, p, sorted[d..] + log[from..p]);
  }

  lemma PartNotOvertaken(log: seq<Event>, start: nat, from: nat, part: seq<Event>, rest: seq<Event>)
    requires from <= |log| && NoneOvertaken(log, start, from, part + rest)
    ensures NoneOvertaken(log, start, from, part)
  {
  }

  lemma TailOfKeptRing(log: seq<Event>, a: nat, from: nat, k: nat, p: nat, sorted: seq<Event>, at: seq<nat>, d: nat, ring: seq<Event>)
    requires a <= k && from <= k <= p <= |log| && Sorts(log[a..k], sorted, at) && d <= |sorted|
    requires ring == sorted[d..] + log[from..p] && NoneOvertaken(log, a, from, ring)
    ensures IsTail(log, p, ring)
  {
    hide Sorts, NoneOvertaken, IsTail;
    PartNotOvertaken(log, a, from, sorted[d..], log[from..p]);
    TailOfKept(log, a, from, k, p, sorted, at, d);
  }

  lemma TailWhenNoneOvertaken(u: Setup, log: seq<Event>, from: nat, ringAt: nat, p: nat)
    requires from <= ringAt <= p <= |log|
    requires NoneOvertaken(log, WindowStart(u, ringAt), from, RingAt(u, log, from, ringAt, p))
    ensures IsTail(log, p, RingAt(u, log, from, ringAt, p))
  {
    hide RingAt, ByTime, Sorts, IsTail, NoneOvertaken, Min, Gone, WindowStart;
    RingShape(u, log, from, ringAt, p);
    var a := WindowStart(u, ringAt);
    var sorted := ByTime(log[a..ringAt]);
    var at := ByTimeSorts(log[a..ringAt]);
    SortedLength(log[a..ringAt], sorted, at);
    var d := Min(|sorted|, Gone(u, |sorted|, from, p));
    if p - from <= u.mirror {
      TailOfKeptRing(log, a, from, ringAt, p, sorted, at, d, RingAt(u, log, from, ringAt, p));
    } else {
      StretchOf(log, p - u.mirror, p);
    }
  }

  /** Out of order, at some later delivery the ring has let go of the later event and not of the
      earlier. */
  lemma GapWhenOvertaken(u: Setup, log: seq<Event>, from: nat, ringAt: nat, p0: nat, i: nat, j: nat) returns (p: nat)
    requires from <= ringAt <= p0 <= |log| && from + u.mirror <= |log| && Distinct(log)
    requires WindowStart(u, ringAt) <= i < j < from && log[i] in RingAt(u, log, from, ringAt, p0) && log[i].ts > log[j].ts
    ensures p0 <= p <= |log| && log[i] in RingAt(u, log, from, ringAt, p) && log[j] !in RingAt(u, log, from, ringAt, p)
  {
    var a := WindowStart(u, ringAt);
    var sorted := ByTime(log[a..ringAt]);
    var at := ByTimeSorts(log[a..ringAt]);
    SortedLength(log[a..ringAt], sorted, at);
    RingShape(u, log, from, ringAt, p0);
    hide RingAt, ByTime, Sorts;
    if p0 - from > u.mirror {
      NotStreamed(log, p0 - u.mirror, p0, i);
      assert false;
    }
    NotStreamed(log, from, p0, i);
    var d := Gone(u, |sorted|, from, p0);
    var qj := OvertakenPlaces(log, a, ringAt, sorted, at, d, i, j);
    p := if qj < d then p0 else from + u.mirror + qj + 1 - |sorted|;
    RingShape(u, log, from, ringAt, p);
    assert Gone(u, |sorted|, from, p) == if qj < d then d else qj + 1;
    NotStreamed(log, from, p, j);
  }

  lemma NotStreamed(log: seq<Event>, from: nat, p: nat, i: nat)
    requires Distinct(log) && i < from <= p <= |log|
    ensures log[i] !in log[from..p]
  {
    InStretch(log, from, p, log[i]);
  }

  /** The earlier event that was overtaken stands after the later one in time order. */
  lemma OvertakenPlaces(log: seq<Event>, a: nat, k: nat, sorted: seq<Event>, at: seq<nat>, d: nat, i: nat, j: nat) returns (q: nat)
    requires a <= i < j < k <= |log| && Sorts(log[a..k], sorted, at) && d <= |sorted| && Distinct(log)
    requires log[i] in sorted[d..] && log[i].ts > log[j].ts
    ensures q < |sorted| && log[j] !in sorted[q + 1..] && (q < d ==> log[j] !in sorted[d..])
    ensures q >= d ==> log[i] in sorted[q + 1..]
  {
    q := PlaceOf(log[a..k], sorted, at, j - a);
    var r := KeptPlace(log, a, k, sorted, at, d, i);
    PlacesInOrder(log[a..k], sorted, at, q, r);
    OnlyPlace(log, a, k, sorted, at, q, j, d);
    OnlyPlace(log, a, k, sorted, at, q, j, q + 1);
    hide Sorts, Distinct;
    assert sorted[q + 1..][r - q - 1] == log[i];
  }

  lemma PlaceOf(xs: seq<Event>, out: seq<Event>, at: seq<nat>, i: nat) returns (q: nat)
    requires Sorts(xs, out, at) && i < |xs|
    ensures q < |at| == |out| && at[q] == i
  {
    assert i in at;
    q :| q < |at| && at[q] == i;
  }

  lemma KeptPlace(log: seq<Event>, a: nat, k: nat, sorted: seq<Event>, at: seq<nat>, d: nat, i: nat) returns (r: nat)
    requires a <= i < k <= |log| && Sorts(log[a..k], sorted, at) && d <= |sorted| && Distinct(log) && log[i] in sorted[d..]
    ensures d <= r < |at| == |sorted| && at[r] == i - a && sorted[r] == log[i]
  {
    var t :| 0 <= t < |sorted[d..]| && sorted[d..][t] == log[i];
    r := d + t;
    assert sorted[r] == log[a..k][at[r]] == log[a + at[r]];
  }

  lemma OnlyPlace(log: seq<Event>, a: nat, k: nat, sorted: seq<Event>, at: seq<nat>, q: nat, j: nat, d: nat)
    requires a <= j < k <= |log| && Sorts(log[a..k], sorted, at) && Distinct(log) && q < |at| && a + at[q] == j && d <= |sorted|
    ensures q < d ==> log[j] !in sorted[d..]
  {
    if q < d {
      forall t | d <= t < |sorted|
        ensures sorted[t] != log[j]
      {
        LaterPrecedes(log[a..k], sorted, at, q, t);
        assert log[a..k][at[t]] == log[a + at[t]];
      }
    }
  }

  /** For distinct events, and a log that goes on long enough for the stream to replace the whole ring: the
      mirror's ring is a gap-free tail at every delivery from p0 on exactly when, at p0, it holds no event
      from before the subscription that was overtaken there by one with an earlier time. */
  lemma RingStaysTailExactly(u: Setup, log: seq<Event>, from: nat, ringAt: nat, p0: nat)
    requires from <= ringAt <= p0 <= |log| && from + u.mirror <= |log| && Distinct(log)
    ensures (forall p | p0 <= p <= |log| :: IsTail(log, p, RingAt(u, log, from, ringAt, p))) <==>
            NoneOvertaken(log, WindowStart(u, ringAt), from, RingAt(u, log, from, ringAt, p0))
  {
    hide RingAt, IsTail, Distinct;
    if NoneOvertaken(log, WindowStart(u, ringAt), from, RingAt(u, log, from, ringAt, p0)) {
      forall p | p0 <= p <= |log|
        ensures IsTail(log, p, RingAt(u, log, from, ringAt, p))
      {
        StaysNotOvertaken(u, log, from, ringAt, p0, p);
        TailWhenNoneOvertaken(u, log, from, ringAt, p);
      }
    } else {
      var i, j :| WindowStart(u, ringAt) <= i < j < from && log[i] in RingAt(u, log, from, ringAt, p0) && log[i].ts > log[j].ts;
      var p := GapWhenOvertaken(u, log, from, ringAt, p0, i, j);
      GapIsNoTail(log, p, RingAt(u, log, from, ringAt, p), i, j);
    }
  }

  /** The ring only ever lets go of what it held from before the subscription. */
  lemma StaysNotOvertaken(u: Setup, log: seq<Event>, from: nat, ringAt: nat, p0: nat, p: nat)
    requires from <= ringAt <= p0 <= p <= |log| && Distinct(log)
    requires NoneOvertaken(log, WindowStart(u, ringAt), from, RingAt(u, log, from, ringAt, p0))
    ensures NoneOvertaken(log, WindowStart(u, ringAt), from, RingAt(u, log, from, ringAt, p))
  {
    hide RingAt, ByTime, WindowStart, Distinct;
    forall i | WindowStart(u, ringAt) <= i < from && log[i] in RingAt(u, log, from, ringAt, p)
      ensures log[i] in RingAt(u, log, from, ringAt, p0)
    {
      StillThere(u, log, from, ringAt, p0, p, i);
    }
  }

  lemma StillThere(u: Setup, log: seq<Event>, from: nat, ringAt: nat, p0: nat, p: nat, i: nat)
    requires from <= ringAt <= p0 <= p <= |log| && Distinct(log) && i < from && log[i] in RingAt(u, log, from, ringAt, p)
    ensures log[i] in RingAt(u, log, from, ringAt, p0)
  {
    hide RingAt, ByTime, WindowStart, Distinct;
    RingShape(u, log, from, ringAt, p0);
    RingShape(u, log, from, ringAt, p);
    var sorted := ByTime(log[WindowStart(u, ringAt)..ringAt]);
    NotStreamed(log, if p - from <= u.mirror then from else p - u.mirror, p, i);
    var (d0, d) := (Min(|sorted|, Gone(u, |sorted|, from, p0)), Min(|sorted|, Gone(u, |sorted|, from, p)));
    DropsMore(sorted, d0, d);
  }

  lemma DropsMore<T>(xs: seq<T>, d0: nat, d: nat)
    requires d0 <= d <= |xs|
    ensures forall x | x in xs[d..] :: x in xs[d0..]
  {
    assert xs[d..] == xs[d0..][d - d0..];
  }

  /** Two events of the log, the earlier one in the set and the later one not: the set has a gap. */
  lemma GapIsNoTail(log: seq<Event>, p: nat, evs: seq<Event>, i: nat, j: nat)
    requires Distinct(log) && i < j < p <= |log| && log[i] in evs && log[j] !in evs
    ensures !IsTail(log, p, evs)
  {
    forall b {:trigger IsStretch(log, b, p, evs)}
      ensures !IsStretch(log, b, p, evs)
    {
      if IsStretch(log, b, p, evs) {
        InStretch(log, b, p, log[i]);
        InStretch(log, b, p, log[j]);
      }
    }
  }

  // ----- the mirror's ring along a run --------------------------------------------------

  /** In every interleaving, once the stream has passed the point where the ring was read, and whatever
      earlier connections lost: a ring that holds nothing overtaken is, taken as a set, a gap-free tail of
      the source's log. */
  lemma MirrorRingIsTail(u: Setup, run: seq<World>, steps: seq<Step>, n: nat)
    requires Reached(u, run, steps) && n < |run|
    requires var (w, c) := (run[n], run[n].conn);
             c.Streaming? && c.greeted && w.dropped == 0 && c.delivered >= c.ringAt
             && c.from <= |w.log| && NoneOvertaken(w.log, WindowStart(u, c.ringAt), c.from, w.mirror.ring)
    ensures IsTail(run[n].log, run[n].conn.delivered, run[n].mirror.ring)
  {
    ReachedKeeps(u, run, steps, n);
    var (w, c) := (run[n], run[n].conn);
    hide Reached, RingAt, IsTail, NoneOvertaken, TrackAll, Loyal;
    TailWhenNoneOvertaken(u, w.log, c.from, c.ringAt, c.delivered);
  }

  /** Nothing is overtaken if the ring read for the snapshot was in time order; the rest of the history
      does not matter. */
  lemma OrderedWindowIsEnough(u: Setup, log: seq<Event>, from: nat, ringAt: nat, ring: seq<Event>)
    requires from <= ringAt <= |log| && OldestFirst(Last(log[..ringAt], u.source))
    ensures NoneOvertaken(log, WindowStart(u, ringAt), from, ring)
  {
    var a := WindowStart(u, ringAt);
    assert Last(log[..ringAt], u.source) == log[a..ringAt];
    forall i, j | a <= i < j < from
      ensures log[i].ts <= log[j].ts
    {
      assert log[a..ringAt][i - a].ts <= log[a..ringAt][j - a].ts;
    }
  }

  /** One connection, streaming from world m to world n. */
  ghost predicate Streams(run: seq<World>, m: nat, n: nat)
    requires m <= n < |run|
  {
    forall i | m <= i <= n :: run[i].conn.Streaming?
  }

  /** What does not change, or only grows, while a connection streams. */
  ghost predicate Follows(v: World, w: World)
    requires v.conn.Streaming? && w.conn.Streaming?
  {
    && w.conn.from == v.conn.from && w.conn.ringAt == v.conn.ringAt && (v.conn.greeted ==> w.conn.greeted)
    && v.dropped <= w.dropped && v.log <= w.log && v.conn.delivered <= w.conn.delivered
  }

  lemma StreamStep(u: Setup, w: World, s: Step)
    requires w.conn.Streaming? && Do(u, w, s).conn.Streaming? && Can(u, w, s)
    ensures Follows(w, Do(u, w, s)) && Do(u, w, s).conn.delivered <= w.conn.delivered + 1
  {
    hide Mirrored, Recent;
  }

  lemma {:induction false} StreamFollows(u: Setup, run: seq<World>, steps: seq<Step>, m: nat, n: nat)
    requires Reached(u, run, steps) && m <= n < |run| && Streams(run, m, n)
    ensures Follows(run[m], run[n])
    decreases n
  {
    hide Do, Can;
    if m < n {
      StreamFollows(u, run, steps, m, n - 1);
      assert Can(u, run[n - 1], steps[n - 1]) && run[n] == Do(u, run[n - 1], steps[n - 1]);
      StreamStep(u, run[n - 1], steps[n - 1]);
    }
  }

  /** Deliveries come one at a time, so no position is skipped. */
  lemma {:induction false} EveryPositionIsReached(u: Setup, run: seq<World>, steps: seq<Step>, m: nat, n: nat, p: nat) returns (i: nat)
    requires Reached(u, run, steps) && m <= n < |run| && Streams(run, m, n)
    requires run[m].conn.delivered <= p <= run[n].conn.delivered
    ensures m <= i <= n && run[i].conn.delivered == p
    decreases n
  {
    hide Do, Can;
    if p == run[n].conn.delivered {
      i := n;
    } else {
      assert Can(u, run[n - 1], steps[n - 1]) && run[n] == Do(u, run[n - 1], steps[n - 1]);
      StreamStep(u, run[n - 1], steps[n - 1]);
      i := EveryPositionIsReached(u, run, steps, m, n - 1, p);
    }
  }

  /** The ring at a world, in terms of the events delivered by a later world of the same connection. */
  lemma RingAlong(u: Setup, run: seq<World>, steps: seq<Step>, m: nat, n: nat)
    requires Reached(u, run, steps) && m <= n < |run| && Streams(run, m, n)
    requires run[m].conn.greeted && run[n].dropped == 0 && run[m].conn.delivered >= run[m].conn.ringAt
    ensures var (v, c, p, q) := (run[m], run[n].conn, run[m].conn.delivered, run[n].conn.delivered);
            && Follows(v, run[n]) && c.from <= c.ringAt <= p <= q <= |run[n].log| && p <= |v.log|
            && v.log[..p] == run[n].log[..q][..p]
            && v.mirror.ring == RingAt(u, run[n].log[..q], c.from, c.ringAt, p)
  {
    StreamFollows(u, run, steps, m, n);
    ReachedKeeps(u, run, steps, m);
    ReachedKeeps(u, run, steps, n);
    hide Reached, Streams, TrackAll, Loyal;
    var (v, c, p, log) := (run[m], run[n].conn, run[m].conn.delivered, run[n].log[..run[n].conn.delivered]);
    RingOfPrefix(u, v.log, log, c.from, c.ringAt, p);
  }

  lemma RingOfPrefix(u: Setup, a: seq<Event>, b: seq<Event>, from: nat, ringAt: nat, p: nat)
    requires from <= ringAt <= p <= |a| && p <= |b| && a[..p] == b[..p]
    ensures RingAt(u, a, from, ringAt, p) == RingAt(u, b, from, ringAt, p)
  {
    hide Recent, Last;
    assert a[..ringAt] == a[..p][..ringAt] == b[..ringAt];
    assert a[from..p] == a[..p][from..] == b[from..p];
  }

  lemma TailOfPrefix(a: seq<Event>, b: seq<Event>, p: nat, evs: seq<Event>)
    requires p <= |a| && p <= |b| && a[..p] == b[..p]
    ensures IsTail(a, p, evs) ==> IsTail(b, p, evs)
  {
    if j :| IsStretch(a, j, p, evs) {
      assert a[j..p] == a[..p][j..] == b[j..p];
      assert IsStretch(b, j, p, evs);
    }
  }

  lemma OvertakenInPrefix(a: seq<Event>, b: seq<Event>, p: nat, start: nat, from: nat, ring: seq<Event>)
    requires from <= p <= |a| && p <= |b| && a[..p] == b[..p]
    ensures NoneOvertaken(a, start, from, ring) ==> NoneOvertaken(b, start, from, ring)
  {
    assert forall i | 0 <= i < p :: a[i] == a[..p][i] == b[i];
  }

  /** Over a connection without drops, long enough for the stream to replace the whole ring, and distinct
      events: the mirror's ring is a gap-free tail of the source's log in every world from m on exactly when,
      in world m, it holds no event from before the subscription that was overtaken there. */
  lemma MirrorRingStaysTailExactly(u: Setup, run: seq<World>, steps: seq<Step>, m: nat, n: nat)
    requires Reached(u, run, steps) && m <= n < |run| && Streams(run, m, n)
    requires run[m].conn.greeted && run[n].dropped == 0 && Distinct(run[n].log)
    requires run[m].conn.delivered >= run[m].conn.ringAt && run[n].conn.delivered >= run[n].conn.from + u.mirror
    ensures var (v, c) := (run[m], run[m].conn);
            && c.from <= |v.log|
            && ((forall i | m <= i <= n :: IsTail(run[i].log, run[i].conn.delivered, run[i].mirror.ring)) <==>
                NoneOvertaken(v.log, WindowStart(u, c.ringAt), c.from, v.mirror.ring))
  {
    hide Reached, RingAt, IsTail, NoneOvertaken;
    var (v, c, q) := (run[m], run[m].conn, run[n].conn.delivered);
    RingAlong(u, run, steps, m, n);
    var log := run[n].log[..q];
    RingStaysTailExactly(u, log, c.from, c.ringAt, c.delivered);
    OvertakenInPrefix(v.log, log, c.delivered, WindowStart(u, c.ringAt), c.from, v.mirror.ring);
    OvertakenInPrefix(log, v.log, c.delivered, WindowStart(u, c.ringAt), c.from, v.mirror.ring);
    if forall i | m <= i <= n :: IsTail(run[i].log, run[i].conn.delivered, run[i].mirror.ring) {
      forall p | c.delivered <= p <= q
        ensures IsTail(log, p, RingAt(u, log, c.from, c.ringAt, p))
      {
        var i := EveryPositionIsReached(u, run, steps, m, n, p);
        TailAlong(u, run, steps, m, i, n);
      }
    } else {
      var i :| m <= i <= n && !IsTail(run[i].log, run[i].conn.delivered, run[i].mirror.ring);
      TailAlong(u, run, steps, m, i, n);
    }
  }

  lemma TailAlong(u: Setup, run: seq<World>, steps: seq<Step>, m: nat, i: nat, n: nat)
    requires Reached(u, run, steps) && m <= i <= n < |run| && Streams(run, m, n)
    requires run[m].conn.greeted && run[n].dropped == 0 && run[m].conn.delivered >= run[m].conn.ringAt
    ensures var (c, p, q) := (run[m].conn, run[i].conn.delivered, run[n].conn.delivered);
            && c.from <= c.ringAt <= c.delivered <= p <= q <= |run[n].log|
            && (IsTail(run[i].log, p, run[i].mirror.ring) <==> IsTail(run[n].log[..q], p, RingAt(u, run[n].log[..q], c.from, c.ringAt, p)))
  {
    hide Reached, RingAt, IsTail;
    StreamFollows(u, run, steps, m, i);
    RingAlong(u, run, steps, i, n);
    var (p, log) := (run[i].conn.delivered, run[n].log[..run[n].conn.delivered]);
    TailOfPrefix(run[i].log, log, p, run[i].mirror.ring);
    TailOfPrefix(log, run[i].log, p, run[i].mirror.ring);
  }

  // ----- a run with a gap ---------------------------------------------------------------

  const A := Event(OtherKind, "", 2, "r", 0)
  const B := Event(OtherKind, "", 1, "r", 1)
  const C := Event(OtherKind, "", 3, "r", 2)
  const SMALL := Setup(2, 2, 64, "r")
  const GAP_STEPS := [Publishes(A), Publishes(B), Connects, ListsOpen([]), SendsSnapshot, Delivers(0), Publishes(C), Sends, Delivers(0)]

  const EMPTY := Held([], map[])
  const GREETED := Held([B, A], map[])
  const GAP_RUN := [
    World([], [], 0, [], Down, EMPTY),
    World([A], [], 0, [], Down, EMPTY),
    World([A, B], [], 0, [], Down, EMPTY),
    World([A, B], [], 0, [], Subscribed(2), EMPTY),
    World([A, B], [], 0, [], Listed(2, 2, []), EMPTY),
    World([A, B], [], 0, [Snapshot([B, A], [])], Streaming(2, 2, [], 2, false, 2, 2), EMPTY),
    World([A, B], [], 0, [], Streaming(2, 2, [], 2, true, 2, 2), GREETED),
    World([A, B, C], [C], 0, [], Streaming(2, 2, [], 2, true, 2, 2), GREETED),
    World([A, B, C], [], 0, [Request(C)], Streaming(2, 2, [], 2, true, 2, 3), GREETED),
    World([A, B, C], [], 0, [], Streaming(2, 2, [], 2, true, 3, 3), Held([A, C], map[]))
  ]

  /** Out of time order the tail has a gap: the snapshot is sorted by time, so the ring lets go of an
      event that is not the oldest published. */
  lemma RingGapWitness()
    ensures Reached(SMALL, GAP_RUN, GAP_STEPS)
    ensures var w := GAP_RUN[9]; w.conn.delivered == |w.log| && !IsTail(w.log, w.conn.delivered, w.mirror.ring)
  {
    hide Can, Do;
    forall i | 0 <= i < 9
      ensures Can(SMALL, GAP_RUN[i], GAP_STEPS[i]) && GAP_RUN[i + 1] == Do(SMALL, GAP_RUN[i], GAP_STEPS[i])
    {
      if i < 3 {
        GapConnects(i);
      } else if i < 6 {
        GapGreets(i);
      } else {
        GapStreams(i);
      }
    }
    GapIsNoTail([A, B, C], 3, [A, C], 0, 1);
  }

  lemma GapConnects(i: nat)
    requires i < 3
    ensures Can(SMALL, GAP_RUN[i], GAP_STEPS[i]) && GAP_RUN[i + 1] == Do(SMALL, GAP_RUN[i], GAP_STEPS[i])
  {
    assert [A, B] == [A] + [B];
  }

  lemma GapGreets(i: nat)
    requires 3 <= i < 6
    ensures Can(SMALL, GAP_RUN[i], GAP_STEPS[i]) && GAP_RUN[i + 1] == Do(SMALL, GAP_RUN[i], GAP_STEPS[i])
  {
    hide Recent, Mirrored, ListsInFlight;
    GapSorted();
    GapOpen();
    GapGreeting();
  }

  lemma GapStreams(i: nat)
    requires 6 <= i < 9
    ensures Can(SMALL, GAP_RUN[i], GAP_STEPS[i]) && GAP_RUN[i + 1] == Do(SMALL, GAP_RUN[i], GAP_STEPS[i])
  {
    hide Recent, Mirrored;
    GapDelivery();
    assert [A, B, C] == [A, B] + [C];
  }

  lemma GapSorted()
    ensures Recent([A, B], 2) == [B, A]
  {
    assert [A, B][..1] == [A] && [A][..0] == [];
    assert Placed([], A) == [A];
    assert ByTime([A]) == [A];
    assert Placed([A], B) == [B, A];
  }

  lemma GapOpen()
    ensures ListsInFlight([A, B], [])
  {
    assert [A, B][..1] == [A] && [A][..0] == [];
    assert TrackAll(map[], [A]) == map[];
  }

  lemma GapGreeting()
    ensures Mirrored(Held([], map[]), Snapshot([B, A], []), "r", 2, 0) == Held([B, A], map[])
  {
    OwnKeepsLoyal("r", [B, A]);
    OwnKeepsLoyal("r", []);
    hide Own;
  }

  lemma GapDelivery()
    ensures Mirrored(Held([B, A], map[]), Request(C), "r", 2, 0) == Held([A, C], map[])
  {
    OwnKeepsLoyal("r", [C]);
    assert Last([B, A] + [C], 2) == [A, C];
    hide Own;
  }

  // ----- the source's broker answers as the protocol says -------------------------------

  function AddAll(log: seq<Event>, capacity: nat): Held {
    if log == [] then Held([], map[]) else Add(AddAll(log[..|log| - 1], capacity), log[|log| - 1], capacity)
  }

  lemma LastStep(xs: seq<Event>, e: Event, n: nat)
    ensures Last(Last(xs, n) + [e], n) == Last(xs + [e], n)
  {
  }

  /** A broker that published exactly these events holds the tail of the log and its open requests. */
  lemma {:induction false} BrokerFollowsLog(log: seq<Event>, capacity: nat)
    ensures AddAll(log, capacity) == Held(Last(log, capacity), TrackAll(map[], log))
  {
    hide Last, Track;
    if log == [] {
      NothingLast(capacity);
    } else {
      BrokerFollowsLog(log[..|log| - 1], capacity);
      LastStep(log[..|log| - 1], log[|log| - 1], capacity);
      assert log == log[..|log| - 1] + [log[|log| - 1]];
    }
  }

  /** The requests such a broker lists as open are those whose last start or finish is a start. */
  lemma BrokerShowsOpen(log: seq<Event>, capacity: nat, id: string)
    ensures var open := AddAll(log, capacity).inflight;
            && (id in open <==> exists k :: LastTold(log, id, k) && log[k].kind.Started?)
            && (forall k | LastTold(log, id, k) && log[k].kind.Started? :: open[id] == log[k])
  {
    BrokerFollowsLog(log, capacity);
    hide TrackAll, AddAll, LastTold;
    OpenExactly(log, id);
  }

  lemma NothingLast(n: nat)
    ensures Last<Event>([], n) == []
  {
  }

  lemma {:induction false} OpenComesFromLog(log: seq<Event>, id: string)
    requires id in TrackAll(map[], log)
    ensures TrackAll(map[], log)[id] in log
  {
    if log != [] {
      var front := log[..|log| - 1];
      assert log == front + [log[|log| - 1]];
      if id in TrackAll(map[], front) {
        OpenComesFromLog(front, id);
      }
    }
  }

  /** What the source's broker answers when asked for its open requests is a listing the protocol allows. */
  lemma AnswerIsListing(log: seq<Event>, open: seq<Event>)
    requires ByRequest(open) == TrackAll(map[], log) && OldestFirst(open)
    requires forall e | e in open :: e.id in ByRequest(open) && ByRequest(open)[e.id] == e
    ensures ListsInFlight(log, open)
  {
    forall e | e in open
      ensures e in log
    {
      OpenComesFromLog(log, e.id);
    }
  }
}
