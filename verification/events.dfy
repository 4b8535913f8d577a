/** The event broker: a bounded replay ring, the set of requests in flight, and subscribers that are never
    waited for (internal/router/events.go). */
module Events {
  import Sorting

  datatype Kind = Started | Finished | OtherKind

  /** One request event; ts is 0 if unset, note stands for the fields the broker does not look at. */
  datatype Event = Event(kind: Kind, id: string, ts: int, replica: string, note: int)

  /** What a broker holds: its ring, oldest first, and the latest started event of every open request. */
  datatype Held = Held(ring: seq<Event>, inflight: map<string, Event>)

  function Stamped(e: Event, local: string, now: int): Event {
    e.(ts := if e.ts == 0 then now else e.ts, replica := if e.replica == "" then local else e.replica)
  }

  function Last<T>(xs: seq<T>, n: nat): seq<T> {
    if |xs| <= n then xs else xs[|xs| - n..]
  }

  function Track(open: map<string, Event>, e: Event): map<string, Event> {
    if e.id == "" || e.kind.OtherKind? then open
    else if e.kind.Started? then open[e.id := e]
    else open - {e.id}
  }

  function TrackAll(open: map<string, Event>, log: seq<Event>): map<string, Event> {
    if log == [] then open else Track(TrackAll(open, log[..|log| - 1]), log[|log| - 1])
  }

  /** The event starts or finishes this request. */
  predicate Tells(e: Event, id: string) {
    id != "" && e.id == id && (e.kind.Started? || e.kind.Finished?)
  }

  /** The event at k is the last that starts or finishes this request. */
  predicate LastTold(log: seq<Event>, id: string, k: int) {
    0 <= k < |log| && Tells(log[k], id) && forall j | k < j < |log| :: !Tells(log[j], id)
  }

  /** A request is open exactly if the last event to start or finish it starts it; what is kept is that event. */
  lemma {:induction false} OpenExactly(log: seq<Event>, id: string)
    ensures id in TrackAll(map[], log) <==> exists k :: LastTold(log, id, k) && log[k].kind.Started?
    ensures forall k | LastTold(log, id, k) && log[k].kind.Started? :: TrackAll(map[], log)[id] == log[k]
  {
    if log != [] {
      var n := |log| - 1;
      var front := log[..n];
      OpenExactly(front, id);
      if Tells(log[n], id) {
        assert LastTold(log, id, n);
      } else {
        forall k: int
          ensures LastTold(log, id, k) <==> LastTold(front, id, k)
        {
          if LastTold(front, id, k) {
            assert forall j | k < j < n :: !Tells(front[j], id);
          }
        }
      }
    }
  }

  /** One more event into a ring of this capacity. */
  function Add(h: Held, e: Event, capacity: nat): Held {
    Held(Last(h.ring + [e], capacity), Track(h.inflight, e))
  }

  /** The open requests a list of their started events describes. */
  function ByRequest(open: seq<Event>): map<string, Event> {
    if open == [] then map[]
    else
      var rest := ByRequest(open[..|open| - 1]);
      var e := open[|open| - 1];
      if e.id == "" then rest else rest[e.id := e]
  }

  /** The event at k is the last of the list to name this request. */
  predicate LastNamed(open: seq<Event>, id: string, k: int) {
    0 <= k < |open| && open[k].id == id && id != "" && forall j | k < j < |open| :: open[j].id != id
  }

  /** A list describes a request exactly if it names it, by the last event to do so. */
  lemma {:induction false} ByRequestExactly(open: seq<Event>, id: string)
    ensures id in ByRequest(open) <==> exists k :: LastNamed(open, id, k)
    ensures forall k | LastNamed(open, id, k) :: ByRequest(open)[id] == open[k]
  {
    if open != [] {
      var n := |open| - 1;
      var front := open[..n];
      ByRequestExactly(front, id);
      if open[n].id == id && id != "" {
        assert LastNamed(open, id, n);
      } else {
        forall k: int
          ensures LastNamed(open, id, k) <==> LastNamed(front, id, k)
        {
          if LastNamed(front, id, k) {
            assert forall j | k < j < n :: front[j].id != id;
          }
        }
      }
    }
  }

  predicate OldestFirst(xs: seq<Event>) {
    forall i, j | 0 <= i < j < |xs| :: xs[i].ts <= xs[j].ts
  }

  // ----- subscribers --------------------------------------------------------------------

  /** A bounded channel. What was offered since the subscription is what was taken out, what is still
      queued, and what was dropped. */
  class Subscriber {
    const depth: nat
    var queue: seq<Event>
    var dropped: nat
    ghost var taken: seq<Event>
    ghost var offered: seq<Event>

    ghost predicate Accounted()
      reads this
    {
      && |queue| <= depth
      && |taken| + |queue| + dropped == |offered|
      && (dropped == 0 ==> taken + queue == offered)
    }

    constructor (buf: int)
      ensures Accounted() && queue == [] && taken == [] && offered == [] && dropped == 0
      ensures depth == if buf <= 0 then 64 else buf
    {
      depth := if buf <= 0 then 64 else buf;
      queue, dropped, taken, offered := [], 0, [], [];
    }

    /** Never blocks: a full channel drops the event. */
    method Offer(e: Event)
      requires Accounted()
      modifies this
      ensures Accounted() && offered == old(offered) + [e] && taken == old(taken)
      ensures if |old(queue)| < depth then queue == old(queue) + [e] && dropped == old(dropped)
              else queue == old(queue) && dropped == old(dropped) + 1
    {
      offered := offered + [e];
      if |queue| < depth {
        queue := queue + [e];
      } else {
        dropped := dropped + 1;
      }
    }

    method Receive() returns (e: Event)
      requires Accounted() && queue != []
      modifies this
      ensures Accounted() && e == old(queue)[0] && queue == old(queue)[1..]
      ensures taken == old(taken) + [e] && offered == old(offered) && dropped == old(dropped)
    {
      e := queue[0];
      taken := taken + [e];
      queue := queue[1..];
    }
  }

  // ----- listing what is open -----------------------------------------------------------

  /** The list holds exactly one event for each of these requests, and nothing else. */
  ghost predicate Describes(open: map<string, Event>, ids: set<string>, out: seq<Event>) {
    && ids <= open.Keys && |out| == |ids|
    && forall e: Event :: multiset(out)[e] == if e.id in ids && open[e.id] == e then 1 else 0
  }

  lemma OneMoreDescribed(open: map<string, Event>, ids: set<string>, out: seq<Event>, id: string)
    requires Describes(open, ids, out) && id in open && id !in ids && open[id].id == id
    ensures Describes(open, ids + {id}, out + [open[id]])
  {
  }

  lemma {:induction false} ByRequestIs(open: map<string, Event>, out: seq<Event>)
    requires forall e | e in out :: e.id != "" && e.id in open && open[e.id] == e
    ensures ByRequest(out) == map id | id in open && open[id].id == id && open[id] in out :: open[id]
  {
    if out != [] {
      ByRequestIs(open, out[..|out| - 1]);
      assert out == out[..|out| - 1] + [out[|out| - 1]];
    }
  }

  /** A list that describes the open requests gives them back. */
  lemma DescribedIsRecovered(open: map<string, Event>, out: seq<Event>)
    requires Describes(open, open.Keys, out)
    requires forall id | id in open :: open[id].id == id && id != ""
    ensures ByRequest(out) == open && |out| == |open|
    ensures forall e | e in out :: e.id in open && open[e.id] == e
  {
    forall e: Event
      ensures e in out <==> e.id in open && open[e.id] == e
    {
      assert e in out <==> multiset(out)[e] > 0;
    }
    ByRequestIs(open, out);
  }

  lemma SortedStillDescribes(open: map<string, Event>, listed: seq<Event>, out: seq<Event>)
    requires Describes(open, open.Keys, listed) && multiset(out) == multiset(listed)
    ensures Describes(open, open.Keys, out)
  {
    assert |out| == |multiset(out)| == |multiset(listed)| == |listed|;
  }

  lemma NothingDescribed(open: map<string, Event>)
    ensures Describes(open, open.Keys - open.Keys, [])
  {
  }

  lemma SwappedParts<T>(before: seq<T>, a: seq<T>, b: seq<T>, after: seq<T>)
    ensures multiset(before + (a + b) + after) == multiset(before + (b + a) + after)
  {
  }

  lemma SwapPermutes<T>(xs: seq<T>, j: nat)
    requires 0 < j < |xs|
    ensures multiset(xs[j := xs[j - 1]][j - 1 := xs[j]]) == multiset(xs)
  {
    var (ys, x, y, before, after) := (xs[j := xs[j - 1]][j - 1 := xs[j]], xs[j - 1], xs[j], xs[..j - 1], xs[j + 1..]);
    assert xs == before + ([x] + [y]) + after;
    assert ys == before + ([y] + [x]) + after;
    SwappedParts(before, [x], [y], after);
  }

  /** Insertion sort, as the original does it. */
  method SortByTime(xs: seq<Event>) returns (out: seq<Event>)
    ensures multiset(out) == multiset(xs) && OldestFirst(out)
  {
    out := xs;
    for i := 0 to |xs|
      invariant |out| == |xs| && multiset(out) == multiset(xs) && OldestFirst(out[..i])
    {
      out := Sift(out, i);
    }
    assert out[..|xs|] == out;
  }

  /** In order up to place i, but for what place j has behind it. */
  ghost predicate OrderedBut(xs: seq<Event>, i: nat, j: nat) {
    i < |xs| && forall a, b | 0 <= a < b <= i && b != j :: xs[a].ts <= xs[b].ts
  }

  lemma SiftStep(xs: seq<Event>, i: nat, j: nat)
    requires OrderedBut(xs, i, j) && 0 < j <= i && xs[j].ts < xs[j - 1].ts
    ensures OrderedBut(xs[j := xs[j - 1]][j - 1 := xs[j]], i, j - 1)
  {
  }

  lemma SiftStart(xs: seq<Event>, i: nat)
    requires i < |xs| && OldestFirst(xs[..i])
    ensures OrderedBut(xs, i, i)
  {
    assert forall a, b | 0 <= a < b < i :: xs[..i][a].ts <= xs[..i][b].ts;
  }

  lemma SiftEnd(xs: seq<Event>, i: nat, j: nat)
    requires OrderedBut(xs, i, j) && j <= i && (j > 0 ==> xs[j].ts >= xs[j - 1].ts)
    ensures OldestFirst(xs[..i + 1])
  {
  }

  method Sift(xs: seq<Event>, i: nat) returns (out: seq<Event>)
    requires i < |xs| && OldestFirst(xs[..i])
    ensures |out| == |xs| && multiset(out) == multiset(xs) && OldestFirst(out[..i + 1])
  {
    SiftStart(xs, i);
    hide OrderedBut, OldestFirst;
    out := xs;
    var j := i;
    while j > 0 && out[j].ts < out[j - 1].ts
      invariant 0 <= j <= i && |out| == |xs| && multiset(out) == multiset(xs)
      invariant OrderedBut(out, i, j)
    {
      SwapPermutes(out, j);
      SiftStep(out, i, j);
      out := out[j := out[j - 1]][j - 1 := out[j]];
      j := j - 1;
    }
    SiftEnd(out, i, j);
  }

  // ----- the ring -----------------------------------------------------------------------

  /** A ring's contents, oldest first. */
  function RingSeq(cells: seq<Event>, head: nat, full: bool): seq<Event>
    requires head < |cells|
  {
    if full then cells[head..] + cells[..head] else cells[..head]
  }

  lemma RingWrite(cells: seq<Event>, head: nat, full: bool, e: Event)
    requires head < |cells|
    ensures var next := (head + 1) % |cells|;
            RingSeq(cells[head := e], next, full || next == 0) == Last(RingSeq(cells, head, full) + [e], |cells|)
  {
    if head + 1 < |cells| {
      assert (head + 1) % |cells| == head + 1;
      WriteInside(cells, head, full, e);
    } else {
      assert (head + 1) % |cells| == 0;
      WriteAtEnd(cells, head, full, e);
    }
  }

  lemma WriteInside(cells: seq<Event>, head: nat, full: bool, e: Event)
    requires head + 1 < |cells|
    ensures RingSeq(cells[head := e], head + 1, full) == Last(RingSeq(cells, head, full) + [e], |cells|)
  {
    var after := cells[head := e];
    assert after[..head + 1] == cells[..head] + [e];
    if full {
      assert after[head + 1..] == cells[head..][1..];
      DropsOldest(cells[head..], cells[..head], e);
    }
  }

  lemma WriteAtEnd(cells: seq<Event>, head: nat, full: bool, e: Event)
    requires head + 1 == |cells|
    ensures RingSeq(cells[head := e], 0, true) == Last(RingSeq(cells, head, full) + [e], |cells|)
  {
    var after := cells[head := e];
    assert after == cells[..head] + [e];
    assert after[0..] + after[..0] == after;
    if full {
      assert cells[head..][1..] == [];
      DropsOldest(cells[head..], cells[..head], e);
    }
  }

  /** In a full ring of this many events, one more drops the oldest. */
  lemma DropsOldest(a: seq<Event>, b: seq<Event>, e: Event)
    requires a != []
    ensures Last(a + b + [e], |a| + |b|) == a[1..] + b + [e]
  {
    assert (a + b + [e])[1..] == a[1..] + b + [e];
  }

  // ----- the broker ---------------------------------------------------------------------

  class Broker {
    const local: string
    const ring: array<Event>
    var head: nat
    var full: bool
    var inflight: map<string, Event>
    var subs: set<Subscriber>

    ghost predicate Sound()
      reads this, ring
    {
      && ring.Length > 0 && head < ring.Length
      && forall id | id in inflight :: inflight[id].id == id && id != ""
    }

    /** The ring's contents, oldest first, and the open requests. */
    ghost function Holds(): Held
      requires Sound()
      reads this, ring
    {
      Held(RingSeq(ring[..], head, full), inflight)
    }

    constructor (capacity: int, local: string)
      ensures Sound() && Holds() == Held([], map[]) && this.local == local && subs == {} && fresh(ring)
      ensures ring.Length == if capacity <= 0 then 500 else capacity
    {
      var n := if capacity <= 0 then 500 else capacity;
      this.local := local;
      ring := new Event[n](_ => Event(OtherKind, "", 0, "", 0));
      head, full, inflight, subs := 0, false, map[], {};
    }

    /** Writes one event over the oldest. */
    method Write(e: Event)
      requires Sound()
      modifies this`head, this`full, ring
      ensures Sound() && inflight == old(inflight)
      ensures Holds().ring == Last(old(Holds().ring) + [e], ring.Length)
    {
      RingWrite(ring[..], head, full, e);
      ghost var after := ring[..][head := e];
      ring[head] := e;
      assert ring[..] == after;
      head := (head + 1) % ring.Length;
      if head == 0 {
        full := true;
      }
    }

    method Publish(e: Event, now: int)
      requires Sound() && forall s | s in subs :: s.Accounted()
      modifies this`head, this`full, this`inflight, ring, subs
      ensures Sound() && Holds() == Add(old(Holds()), Stamped(e, local, now), ring.Length)
      ensures inflight == if e.id == "" || e.kind.OtherKind? then old(inflight)
                          else if e.kind.Finished? then old(inflight) - {e.id}
                          else old(inflight)[e.id := Event(Started, e.id, if e.ts == 0 then now else e.ts, if e.replica == "" then local else e.replica, e.note)]
      ensures forall s | s in subs :: s.Accounted() && s.offered == old(s.offered) + [Stamped(e, local, now)] && s.taken == old(s.taken)
    {
      var stamped := Stamped(e, local, now);
      Write(stamped);
      if stamped.id != "" {
        match stamped.kind {
          case Started => inflight := inflight[stamped.id := stamped];
          case Finished => inflight := inflight - {stamped.id};
          case OtherKind =>
        }
      }
      FanOut(stamped);
    }

    method FanOut(e: Event)
      requires forall s | s in subs :: s.Accounted()
      modifies subs
      ensures forall s | s in subs :: s.Accounted() && s.offered == old(s.offered) + [e] && s.taken == old(s.taken)
    {
      var todo := subs;
      while todo != {}
        invariant todo <= subs
        invariant forall s | s in subs :: s.Accounted() && s.taken == old(s.taken)
        invariant forall s | s in subs :: s.offered == old(s.offered) + if s in todo then [] else [e]
        decreases todo
      {
        var s := Sorting.Pick(todo);
        s.Offer(e);
        todo := todo - {s};
      }
    }

    method Subscribe(buf: int) returns (s: Subscriber)
      requires forall o | o in subs :: o.Accounted()
      modifies this`subs
      ensures fresh(s) && subs == old(subs) + {s} && s.offered == [] && s.depth == (if buf <= 0 then 64 else buf)
      ensures forall o | o in subs :: o.Accounted()
    {
      s := new Subscriber(buf);
      subs := subs + {s};
    }

    method Unsubscribe(s: Subscriber)
      modifies this`subs
      ensures subs == old(subs) - {s}
    {
      subs := subs - {s};
    }

    method ClearInFlight()
      requires Sound()
      modifies this`inflight
      ensures Sound() && Holds() == Held(old(Holds().ring), map[])
    {
      inflight := map[];
    }

    /** Replaces everything by a snapshot, telling no subscriber. */
    method Reset(recent: seq<Event>, open: seq<Event>)
      requires Sound()
      modifies this`head, this`full, this`inflight, ring
      ensures Sound() && Holds() == Held(Last(recent, ring.Length), ByRequest(open))
    {
      forall i | 0 <= i < ring.Length {
        ring[i] := Event(OtherKind, "", 0, "", 0);
      }
      head, full := 0, false;
      var kept := if |recent| > ring.Length then recent[|recent| - ring.Length..] else recent;
      Refill(kept);
      Reopen(open);
    }

    method Refill(kept: seq<Event>)
      requires Sound() && Holds().ring == [] && |kept| <= ring.Length
      modifies this`head, this`full, ring
      ensures Sound() && inflight == old(inflight) && Holds().ring == kept
    {
      hide RingSeq;
      for i := 0 to |kept|
        invariant Sound() && inflight == old(inflight) && Holds().ring == kept[..i]
      {
        Write(kept[i]);
        assert kept[..i] + [kept[i]] == kept[..i + 1];
      }
      assert kept[..|kept|] == kept;
    }

    method Reopen(open: seq<Event>)
      requires Sound()
      modifies this`inflight
      ensures Sound() && Holds() == Held(old(Holds().ring), ByRequest(open))
    {
      inflight := map[];
      for i := 0 to |open|
        invariant inflight == ByRequest(open[..i])
        invariant forall id | id in inflight :: inflight[id].id == id && id != ""
      {
        assert open[..i + 1][..i] == open[..i];
        if open[i].id != "" {
          inflight := inflight[open[i].id := open[i]];
        }
      }
      assert open[..|open|] == open;
    }

    method Replay() returns (out: seq<Event>)
      requires Sound()
      ensures out == Holds().ring
    {
      if !full {
        return ring[..head];
      }
      return ring[head..] + ring[..head];
    }

    /** The open requests, oldest first. */
    method InFlight() returns (out: seq<Event>)
      requires Sound()
      ensures ByRequest(out) == inflight && OldestFirst(out) && |out| == |inflight|
      ensures forall e | e in out :: e.id in inflight && inflight[e.id] == e
    {
      hide Describes;
      out := [];
      var todo := inflight.Keys;
      NothingDescribed(inflight);
      while todo != {}
        invariant todo <= inflight.Keys && Describes(inflight, inflight.Keys - todo, out)
        decreases todo
      {
        var id := Sorting.Pick(todo);
        OneMoreDescribed(inflight, inflight.Keys - todo, out, id);
        assert inflight.Keys - todo + {id} == inflight.Keys - (todo - {id});
        out := out + [inflight[id]];
        todo := todo - {id};
      }
      assert inflight.Keys - {} == inflight.Keys;
      ghost var listed := out;
      out := SortByTime(out);
      SortedStillDescribes(inflight, listed, out);
      DescribedIsRecovered(inflight, out);
    }
  }
}
