/** The listing verdicts where the tracker keeps them: one good listing of a base sets the absent flag of each
    of the base's members in its record (internal/health/inventory.go, applyInventoryLocked). */
module ListingVerdicts {
  import Sorting
  import Registries
  import Inventories
  import Trackers
  import Seats

  /** The models the tracker's records call absent. */
  ghost function AbsentIn(seats: map<string, Seats.Seat>): set<string> {
    set id | id in seats && seats[id].absent
  }

  /** Only absent flags differ; a record made on the way is otherwise a fresh one. */
  ghost predicate OnlyFlags(setup: Trackers.Setup, before: map<string, Seats.Seat>, after: map<string, Seats.Seat>) {
    && before.Keys <= after.Keys
    && forall id | id in after :: FlagOnly(if id in before then before[id] else Seats.NewSeat(setup.Eligible(id)), after[id])
  }

  predicate FlagOnly(s: Seats.Seat, t: Seats.Seat) {
    t == s.(absent := t.absent)
  }

  /** The members not left to do are judged, the others as they were. */
  ghost predicate Halfway(r: Registries.Registry, t: Inventories.Tables, root: string, l: Inventories.Listing,
                          before: map<string, Seats.Seat>, after: map<string, Seats.Seat>, todo: set<string>) {
    forall id :: JudgedYet(r, t, root, l, before, after, todo, id)
  }

  ghost predicate JudgedYet(r: Registries.Registry, t: Inventories.Tables, root: string, l: Inventories.Listing,
                            before: map<string, Seats.Seat>, after: map<string, Seats.Seat>, todo: set<string>, id: string) {
    if id in todo then id in AbsentIn(after) <==> id in AbsentIn(before)
    else Inventories.Judged(r, t, root, l, AbsentIn(before), AbsentIn(after), id)
  }

  predicate ToJudge(r: Registries.Registry, t: Inventories.Tables, root: string, id: string) {
    id in t.member && t.member[id] == root && id in r.models
  }

  lemma OneJudged(r: Registries.Registry, t: Inventories.Tables, root: string, l: Inventories.Listing,
                  before: map<string, Seats.Seat>, mid: map<string, Seats.Seat>, s: Seats.Seat, todo: set<string>, id: string)
    requires Halfway(r, t, root, l, before, mid, todo) && ToJudge(r, t, root, id)
    requires s.absent == (Registries.BackendName(r.models[id].hfRepo) !in l)
    ensures Halfway(r, t, root, l, before, mid[id := s], todo - {id})
  {
    hide Registries.BackendName;
    var (after, left) := (mid[id := s], todo - {id});
    forall x
      ensures JudgedYet(r, t, root, l, before, after, left, x)
    {
      assert JudgedYet(r, t, root, l, before, mid, todo, x);
    }
  }

  lemma OneSkipped(r: Registries.Registry, t: Inventories.Tables, root: string, l: Inventories.Listing,
                   before: map<string, Seats.Seat>, mid: map<string, Seats.Seat>, todo: set<string>, id: string)
    requires Halfway(r, t, root, l, before, mid, todo) && id in todo && !ToJudge(r, t, root, id)
    ensures Halfway(r, t, root, l, before, mid, todo - {id})
  {
    hide Registries.BackendName;
    var left := todo - {id};
    forall x
      ensures JudgedYet(r, t, root, l, before, mid, left, x)
    {
      assert JudgedYet(r, t, root, l, before, mid, todo, x);
    }
  }

  lemma NoneJudged(r: Registries.Registry, t: Inventories.Tables, root: string, l: Inventories.Listing, seats: map<string, Seats.Seat>)
    ensures Halfway(r, t, root, l, seats, seats, t.member.Keys)
  {
  }

  lemma AllJudged(r: Registries.Registry, t: Inventories.Tables, root: string, l: Inventories.Listing,
                  before: map<string, Seats.Seat>, after: map<string, Seats.Seat>)
    requires Halfway(r, t, root, l, before, after, {})
    ensures forall id :: Inventories.Judged(r, t, root, l, AbsentIn(before), AbsentIn(after), id)
  {
    forall id
      ensures Inventories.Judged(r, t, root, l, AbsentIn(before), AbsentIn(after), id)
    {
      assert JudgedYet(r, t, root, l, before, after, {}, id);
    }
  }

  lemma FlagMoved(setup: Trackers.Setup, before: map<string, Seats.Seat>, mid: map<string, Seats.Seat>, id: string, absent: bool)
    requires OnlyFlags(setup, before, mid)
    ensures var s := if id in mid then mid[id] else Seats.NewSeat(setup.Eligible(id));
            OnlyFlags(setup, before, mid[id := s.(absent := absent)])
  {
    hide Seats.NewSeat;
  }

  lemma NoFlags(setup: Trackers.Setup, seats: map<string, Seats.Seat>)
    ensures OnlyFlags(setup, seats, seats)
  {
  }

  /** The tracker's flags are judged by the listing exactly as the inventory's own set is, and nothing else of
      any record moves. */
  method JudgeSeats(k: Trackers.Tracker, r: Registries.Registry, t: Inventories.Tables, root: string, l: Inventories.Listing, now: int)
    requires k.Valid() && Trackers.NoLater(k.log, now)
    modifies k, k.records
    ensures k.Valid() && Trackers.NoLater(k.log, now)
    ensures forall id :: Inventories.Judged(r, t, root, l, AbsentIn(old(k.seats)), AbsentIn(k.seats), id)
    ensures OnlyFlags(k.setup, old(k.seats), k.seats)
  {
    hide Trackers.NoLater, Seats.NewSeat, Registries.BackendName, Halfway, OnlyFlags, AbsentIn, Inventories.Judged, Trackers.Tracker.Follows, Trackers.Tracker.Agree;
    ghost var was := k.seats;
    var todo := t.member.Keys;
    NoneJudged(r, t, root, l, was);
    NoFlags(k.setup, was);
    while todo != {}
      invariant todo <= t.member.Keys && k.Valid() && Trackers.NoLater(k.log, now)
      invariant fresh(k.records - old(k.records))
      invariant Halfway(r, t, root, l, was, k.seats, todo) && OnlyFlags(k.setup, was, k.seats)
      decreases todo
    {
      var id := Sorting.Pick(todo);
      if t.member[id] == root && id in r.models {
        var absent := Registries.BackendName(r.models[id].hfRepo) !in l;
        FlagMoved(k.setup, was, k.seats, id, absent);
        OneJudged(r, t, root, l, was, k.seats, k.SeatOf(id).(absent := absent), todo, id);
        k.SetAbsent(id, absent, now);
      } else {
        OneSkipped(r, t, root, l, was, k.seats, todo, id);
      }
      todo := todo - {id};
    }
    AllJudged(r, t, root, l, was, k.seats);
  }

  /** So a tracker and an inventory that agreed before a listing agree after it. */
  lemma SameVerdicts(r: Registries.Registry, t: Inventories.Tables, root: string, l: Inventories.Listing,
                     before: set<string>, flags: set<string>, absent: set<string>)
    requires forall id :: Inventories.Judged(r, t, root, l, before, flags, id)
    requires forall id :: Inventories.Judged(r, t, root, l, before, absent, id)
    ensures flags == absent
  {
    forall id
      ensures id in flags <==> id in absent
    {
      assert Inventories.Judged(r, t, root, l, before, flags, id) && Inventories.Judged(r, t, root, l, before, absent, id);
    }
  }
}
