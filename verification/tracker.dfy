/** The tracker itself (internal/health/tracker.go): one mutable record per model, changed in place by
    polls, probe results and traffic reports, and proved to follow the per-seat machine of Seats on
    every run, for all models at once. */
module Trackers {
  import opened Seats
  import opened ProbeBackoffs
  import opened ModelStates
  import Breakers
  import Verdicts
  import Sorting

  /** Who is probed: the switch, the entries the registry says to probe, the router's mode filter. */
  datatype Setup = Setup(config: Config, disabled: bool, probeEnabled: set<string>, filter: Option<set<string>>)
  {
    predicate Eligible(id: string) {
      !disabled && id in probeEnabled && (filter.None? || id in filter.value)
    }
  }

  // ----- the log of all models ----------------------------------------------------------

  /** One event of the tracker. The end of a poll round is everybody's. */
  datatype Entry = Entry(id: string, t: Timed)

  predicate Concerns(e: Entry, id: string) {
    e.id == id || e.t.e.RoundEnded?
  }

  /** What one model sees of the log. */
  function Project(log: seq<Entry>, id: string): seq<Timed> {
    if log == [] then []
    else
      var rest := Project(log[..|log| - 1], id);
      if Concerns(log[|log| - 1], id) then rest + [log[|log| - 1].t] else rest
  }

  function Found(seats: map<string, Seat>, id: string): Option<Seat> {
    if id in seats then Some(seats[id]) else None
  }

  function WorldAt(seats: map<string, Seat>, jobs: map<string, set<nat>>, polled: bool, id: string): World {
    World(Found(seats, id), JobsOf(jobs, id), polled)
  }

  /** The world of this model is what its part of the log makes of it, and that part can happen. */
  ghost predicate RefinesAt(u: Setup, w: World, part: seq<Timed>, eligible: bool) {
    Possible(u.config, eligible, part) && w == After(u.config, eligible, part, |part|)
  }

  ghost predicate Refines(u: Setup, seats: map<string, Seat>, jobs: map<string, set<nat>>, polled: bool, log: seq<Entry>) {
    forall id: string :: RefinesAt(u, WorldAt(seats, jobs, polled, id), Project(log, id), u.Eligible(id))
  }

  ghost predicate NoLater(log: seq<Entry>, now: int) {
    forall i | 0 <= i < |log| :: log[i].t.at <= now
  }

  lemma {:induction false} AfterPrefix(c: Config, eligible: bool, log: seq<Timed>, more: seq<Timed>, n: nat)
    requires n <= |log|
    ensures After(c, eligible, log + more, n) == After(c, eligible, log, n)
    decreases n
  {
    if n > 0 {
      AfterPrefix(c, eligible, log, more, n - 1);
      hide Next;
      assert (log + more)[n - 1] == log[n - 1];
    }
  }

  lemma {:induction false} ProjectNoLater(log: seq<Entry>, id: string, now: int)
    requires NoLater(log, now)
    ensures forall i | 0 <= i < |Project(log, id)| :: Project(log, id)[i].at <= now
    decreases |log|
  {
    if log != [] {
      ProjectNoLater(log[..|log| - 1], id, now);
    }
  }

  /** One more event keeps one model's world in step. */
  lemma RefinesStep(u: Setup, eligible: bool, part: seq<Timed>, w: World, t: Timed)
    requires RefinesAt(u, w, part, eligible) && Enabled(w, t)
    requires forall i | 0 <= i < |part| :: part[i].at <= t.at
    ensures RefinesAt(u, Next(u.config, eligible, w, t), part + [t], eligible)
  {
    hide Next, Enabled, Sane;
    var next := part + [t];
    forall n | 0 <= n <= |part|
      ensures After(u.config, eligible, next, n) == After(u.config, eligible, part, n)
    {
      AfterPrefix(u.config, eligible, part, [t], n);
    }
    assert After(u.config, eligible, next, |next|) == Next(u.config, eligible, After(u.config, eligible, next, |part|), next[|part|]);
    forall i | 0 <= i < |next|
      ensures Enabled(After(u.config, eligible, next, i), next[i])
    {
      assert next[i] == if i < |part| then part[i] else t;
    }
  }

  /** One more event of the tracker that moves the models it concerns, and no others, as the machine
      does keeps them all in step. */
  lemma Recorded(u: Setup, seats: map<string, Seat>, jobs: map<string, set<nat>>, polled: bool, log: seq<Entry>, e: Entry,
                 seats': map<string, Seat>, jobs': map<string, set<nat>>, polled': bool)
    requires Refines(u, seats, jobs, polled, log) && NoLater(log, e.t.at)
    requires e.t.e.RoundEnded? || Enabled(WorldAt(seats, jobs, polled, e.id), e.t)
    requires forall id: string ::
               WorldAt(seats', jobs', polled', id) ==
               if Concerns(e, id) then Next(u.config, u.Eligible(id), WorldAt(seats, jobs, polled, id), e.t)
               else WorldAt(seats, jobs, polled, id)
    ensures Refines(u, seats', jobs', polled', log + [e]) && NoLater(log + [e], e.t.at)
  {
    forall id: string
      ensures RefinesAt(u, WorldAt(seats', jobs', polled', id), Project(log + [e], id), u.Eligible(id))
    {
      hide WorldAt, RefinesAt, Next;
      assert (log + [e])[..|log|] == log;
      assert RefinesAt(u, WorldAt(seats, jobs, polled, id), Project(log, id), u.Eligible(id));
      assert WorldAt(seats', jobs', polled', id) ==
             if Concerns(e, id) then Next(u.config, u.Eligible(id), WorldAt(seats, jobs, polled, id), e.t)
             else WorldAt(seats, jobs, polled, id);
      if Concerns(e, id) {
        ProjectNoLater(log, id, e.t.at);
        RefinesStep(u, u.Eligible(id), Project(log, id), WorldAt(seats, jobs, polled, id), e.t);
      }
    }
  }

  lemma UnseenVerdict(c: Config, polled: bool, now: int)
    ensures VerdictOf(c, None, polled, now) == if !polled then Verdict(Unknown, FromAssumed) else Verdict(Available, FromAssumed)
  {
  }

  lemma Moved(u: Setup, seats: map<string, Seat>, jobs: map<string, set<nat>>, polled: bool, log: seq<Entry>, id: string, t: Timed,
              before: Seat)
    requires Refines(u, seats, jobs, polled, log) && NoLater(log, t.at)
    requires Moves(id in seats, t.e) && Enabled(WorldAt(seats, jobs, polled, id), t)
    requires before == if id in seats then seats[id] else NewSeat(u.Eligible(id))
    ensures Refines(u, seats[id := Fold(u.config, before, t)], jobs, polled, log + [Entry(id, t)])
    ensures NoLater(log + [Entry(id, t)], t.at)
  {
    hide Refines, Enabled, Observe, ApplyProbe, Fail, Succeed, Query;
    var w := WorldAt(seats, jobs, polled, id);
    assert Next(u.config, u.Eligible(id), w, t) == w.(seat := Some(Fold(u.config, before, t)));
    Recorded(u, seats, jobs, polled, log, Entry(id, t), seats[id := Fold(u.config, before, t)], jobs, polled);
  }

  /** What a verdict says about everything that happened before it: it is the one the log gives; so
      "available, says the poll" on a
      probed seat means the seat has been through warming and, since it last entered it, served a
      request or had a probe of that warm-up come back good; "unavailable, says the breaker" means that
      the log's latest opening is still within its own cooldown with no success since. */
  ghost predicate EarnedAndDenied(u: Setup, log: seq<Entry>, id: string, now: int, v: Verdict) {
    var part := Project(log, id);
    && v == Verdicts.LogVerdict(u.config, u.Eligible(id), part, |part|, now)
    && (v == Verdict(Available, FromPoll) && u.Eligible(id) ==>
          SeqAt(u.config, true, part, |part|) >= 1 && Earned(u.config, true, part, |part|))
    && (v == Verdict(Unavailable, FromPassive) <==> Breakers.DeniedAt(u.config, u.Eligible(id), part, |part|, now))
  }

  lemma VerdictIsLogged(u: Setup, seats: map<string, Seat>, jobs: map<string, set<nat>>, polled: bool, log: seq<Entry>,
                        id: string, now: int)
    requires Sane(u.config) && Refines(u, seats, jobs, polled, log)
    ensures EarnedAndDenied(u, log, id, now, VerdictOf(u.config, Found(seats, id), polled, now))
  {
    hide Earned, Breakers.DeniedAt, VerdictOf, After, SeqAt, Possible, Verdicts.LogVerdict;
    var w := WorldAt(seats, jobs, polled, id);
    var part := Project(log, id);
    assert RefinesAt(u, w, part, u.Eligible(id));
    Breakers.DeniesExactly(u.config, u.Eligible(id), part, now);
    Verdicts.VerdictIsTheLogs(u.config, u.Eligible(id), part, |part|, now);
    if u.Eligible(id) && VerdictOf(u.config, w.seat, polled, now) == Verdict(Available, FromPoll) {
      AvailableFromPollIsEarned(u.config, true, part, now);
    }
  }

  // ----- the tracker --------------------------------------------------------------------

  class Tracker {
    const setup: Setup
    var models: map<string, ModelState>
    var polled: bool
    /** What the records hold, the probes under way by model, and all that happened. */
    ghost var seats: map<string, Seat>
    ghost var jobs: map<string, set<nat>>
    ghost var log: seq<Entry>
    ghost var records: set<ModelState>

    /** Every model has a record of its own. */
    ghost predicate Apart()
      reads this`models, this`records
    {
      && (forall a, b | a in models && b in models && a != b :: models[a] != models[b])
      && (forall a | a in models :: models[a] in records)
    }

    /** What is said of the models is what their records hold. */
    ghost predicate Agree()
      reads this`models, this`seats, this`records, records
    {
      && Apart()
      && (forall a | a in models :: a in seats && models[a].Abs() == seats[a])
      && (forall a | a in seats :: a in models)
    }

    /** The same but for one model, whose record is being created or changed. */
    ghost predicate AgreeBut(id: string)
      reads this`models, this`seats, this`records, records
    {
      && Apart()
      && (forall a | a in models && a != id :: a in seats && models[a].Abs() == seats[a])
      && (forall a | a in seats :: a in models)
    }

    ghost function SeatOf(id: string): Seat
      reads this
    {
      if id in seats then seats[id] else NewSeat(setup.Eligible(id))
    }

    /** The log says it all: what every record holds follows from what happened. */
    ghost predicate Follows()
      reads this`seats, this`jobs, this`polled, this`log
    {
      Sane(setup.config) && Refines(setup, seats, jobs, polled, log)
    }

    ghost predicate Valid()
      reads this, records
    {
      Follows() && Agree()
    }

    constructor (u: Setup)
      requires Sane(u.config)
      ensures Valid() && setup == u && seats == map[] && log == [] && jobs == map[] && !polled
    {
      setup := u;
      models := map[];
      polled := false;
      seats, jobs, log, records := map[], map[], [], {};
    }

    /** The record of a model, created with its probe eligibility on first sight. */
    method StateFor(id: string) returns (st: ModelState)
      requires Agree()
      modifies this`models, this`records
      ensures AgreeBut(id) && id in models && models[id] == st && st in records
      ensures st.Abs() == SeatOf(id)
      ensures id !in old(models) ==>
                (st.Abs().probe <==> !setup.disabled && id in setup.probeEnabled && (setup.filter.None? || id in setup.filter.value))
      ensures fresh(records - old(records))
    {
      if id in models {
        st := models[id];
      } else {
        st := new ModelState(setup.Eligible(id));
        models := models[id := st];
        records := records + {st};
      }
    }

    /** Notes down an event that moved the record of its model. */
    ghost method Note(id: string, t: Timed)
      requires Follows() && NoLater(log, t.at) && Moves(id in seats, t.e) && Enabled(WorldAt(seats, jobs, polled, id), t)
      requires AgreeBut(id) && id in models && models[id].Abs() == Fold(setup.config, SeatOf(id), t)
      modifies this`seats, this`log
      ensures Valid() && NoLater(log, t.at) && log == old(log) + [Entry(id, t)]
      ensures seats == old(seats)[id := Fold(setup.config, old(SeatOf(id)), t)]
    {
      hide Apart, Refines, NoLater, Fold, ModelState.Abs, WorldAt, Enabled, Moves;
      Moved(setup, seats, jobs, polled, log, id, t, SeatOf(id));
      seats := seats[id := Fold(setup.config, SeatOf(id), t)];
      log := log + [Entry(id, t)];
    }

    /** Notes down an event about a model that has no record, which changes nothing. */
    ghost method Skip(id: string, t: Timed)
      requires Valid() && NoLater(log, t.at) && id !in seats && (t.e.ProbeDone? || t.e.Succeeded? || t.e.Queried?)
      requires Enabled(WorldAt(seats, jobs, polled, id), t)
      modifies this`log
      ensures Valid() && NoLater(log, t.at) && log == old(log) + [Entry(id, t)]
    {
      hide Apart, Refines, NoLater, Enabled;
      Recorded(setup, seats, jobs, polled, log, Entry(id, t), seats, jobs, polled);
      log := log + [Entry(id, t)];
    }

    method ApplyObservation(id: string, ok: bool, now: int)
      requires Valid() && NoLater(log, now)
      modifies this, records
      ensures Valid() && NoLater(log, now) && log == old(log) + [Entry(id, Timed(Observed(ok), now))]
      ensures seats == old(seats)[id := Observe(setup.config, old(SeatOf(id)), ok, now)]
      ensures jobs == old(jobs) && polled == old(polled) && fresh(records - old(records))
    {
      hide Follows, NoLater, Observe, ModelState.Abs, NewSeat;
      var st := StateFor(id);
      st.ApplyObservation(setup.config, ok, now);
      Note(id, Timed(Observed(ok), now));
    }

    method ReportFailure(id: string, f: Failure, now: int)
      requires Valid() && NoLater(log, now)
      modifies this, records
      ensures Valid() && NoLater(log, now) && log == old(log) + [Entry(id, Timed(Failed(f), now))]
      ensures seats == old(seats)[id := Fail(setup.config, old(SeatOf(id)), f, now)]
      ensures jobs == old(jobs) && polled == old(polled) && fresh(records - old(records))
    {
      hide Follows, NoLater, Fail, ModelState.Abs, NewSeat;
      var st := StateFor(id);
      st.FoldFailure(setup.config, f, now);
      Note(id, Timed(Failed(f), now));
    }

    /** A success of a model never seen before leaves no trace. */
    method ReportSuccess(id: string, now: int)
      requires Valid() && NoLater(log, now)
      modifies this, records
      ensures Valid() && NoLater(log, now) && log == old(log) + [Entry(id, Timed(Succeeded, now))]
      ensures seats == if id in old(seats) then old(seats)[id := Succeed(old(seats)[id])] else old(seats)
      ensures jobs == old(jobs) && polled == old(polled) && records == old(records)
    {
      hide Follows, NoLater, Succeed, ModelState.Abs, NewSeat;
      if id in models {
        models[id].FoldSuccess();
        Note(id, Timed(Succeeded, now));
      } else {
        Skip(id, Timed(Succeeded, now));
      }
    }

    /** Folds in the result of a probe under way. */
    method ApplyProbeResult(id: string, seqNo: nat, good: bool, message: string, now: int)
      requires Valid() && NoLater(log, now) && seqNo in JobsOf(jobs, id)
      modifies this, records
      ensures Valid() && NoLater(log, now) && log == old(log) + [Entry(id, Timed(ProbeDone(seqNo, good, message), now))]
      ensures seats == if id in old(seats) then old(seats)[id := ApplyProbe(old(seats)[id], seqNo, good, message, now)] else old(seats)
      ensures jobs == old(jobs) && polled == old(polled) && records == old(records)
    {
      hide Follows, NoLater, ApplyProbe, ModelState.Abs, NewSeat;
      if id in models {
        models[id].FoldProbe(seqNo, good, message, now);
        Note(id, Timed(ProbeDone(seqNo, good, message), now));
      } else {
        Skip(id, Timed(ProbeDone(seqNo, good, message), now));
      }
    }

    /** The listing verdict of a hand-written entry (internal/health/inventory.go). */
    method SetAbsent(id: string, absent: bool, now: int)
      requires Valid() && NoLater(log, now)
      modifies this, records
      ensures Valid() && NoLater(log, now) && log == old(log) + [Entry(id, Timed(Listed(absent), now))]
      ensures seats == old(seats)[id := old(SeatOf(id)).(absent := absent)]
      ensures jobs == old(jobs) && polled == old(polled) && fresh(records - old(records))
    {
      hide Follows, NoLater, ModelState.Abs, NewSeat;
      var st := StateFor(id);
      st.SetAbsent(absent);
      Note(id, Timed(Listed(absent), now));
    }

    /** The verdict on one model. A probed seat that is called available on the poll's word has earned
        it since it last entered warming; and the breaker denies exactly as the log says. */
    method State(id: string, now: int) returns (v: Verdict)
      requires Valid() && NoLater(log, now)
      modifies this, records
      ensures Valid() && NoLater(log, now) && log == old(log) + [Entry(id, Timed(Queried, now))]
      ensures v == VerdictOf(setup.config, Found(old(seats), id), old(polled), now)
      ensures seats == if id in old(seats) then old(seats)[id := Query(setup.config, old(seats)[id], now)] else old(seats)
      ensures jobs == old(jobs) && polled == old(polled) && records == old(records)
      ensures EarnedAndDenied(setup, old(log), id, now, v)
    {
      VerdictIsLogged(setup, seats, jobs, polled, log, id, now);
      hide Agree, Follows, NoLater, Query, VerdictOf, EarnedAndDenied;
      SameKeys();
      if id in models {
        v := Answer(id, now);
      } else {
        v := if !polled then Verdict(Unknown, FromAssumed) else Verdict(Available, FromAssumed);
        UnseenVerdict(setup.config, polled, now);
        Skip(id, Timed(Queried, now));
      }
    }

    lemma SameKeys()
      requires Agree()
      ensures forall id :: id in models <==> id in seats
    {
    }

    method Answer(id: string, now: int) returns (v: Verdict)
      requires Valid() && NoLater(log, now) && id in models
      modifies this`seats, this`log, records
      ensures Valid() && NoLater(log, now) && log == old(log) + [Entry(id, Timed(Queried, now))]
      ensures id in old(seats) && v == VerdictOf(setup.config, Some(old(seats)[id]), polled, now)
      ensures seats == old(seats)[id := Query(setup.config, old(seats)[id], now)]
    {
      hide Follows, NoLater, Query, VerdictOf, ModelState.Abs, NewSeat;
      v := models[id].Answer(setup.config, polled, now);
      Note(id, Timed(Queried, now));
    }

    /** Notes down that a probe was launched, under the number its seat has now. */
    ghost method Launch(id: string, now: int)
      requires Valid() && NoLater(log, now) && id in seats && Due(seats[id], now)
      modifies this`log, this`jobs
      ensures Valid() && NoLater(log, now) && log == old(log) + [Entry(id, Timed(Launched, now))]
      ensures jobs == old(jobs)[id := JobsOf(old(jobs), id) + {seats[id].probeSeq}]
    {
      hide Agree, Refines, NoLater;
      var e := Entry(id, Timed(Launched, now));
      var more := jobs[id := JobsOf(jobs, id) + {seats[id].probeSeq}];
      Recorded(setup, seats, jobs, polled, log, e, seats, more, polled);
      jobs := more;
      log := log + [e];
    }

    /** With probing switched off no seat is ever due. */
    lemma NobodyDue(now: int)
      requires setup.disabled && Follows()
      ensures forall id | id in seats :: !Due(seats[id], now)
    {
      forall id | id in seats
        ensures !Due(seats[id], now)
      {
        assert RefinesAt(setup, WorldAt(seats, jobs, polled, id), Project(log, id), setup.Eligible(id));
        ListedSeatsWarmedUp(setup.config, setup.Eligible(id), Project(log, id), |Project(log, id)|);
      }
    }

    /** Adds one model's probe to the due ones if it is due. */
    method Consider(id: string, due: map<string, nat>, now: int, ghost todo: set<string>, ghost before: map<string, set<nat>>)
      returns (more: map<string, nat>)
      requires Valid() && NoLater(log, now) && id in todo && id in models
      requires Chosen(seats, todo, due, now) && Added(before, jobs, due)
      modifies this`log, this`jobs
      ensures Valid() && NoLater(log, now) && old(log) <= log
      ensures Chosen(seats, todo - {id}, more, now) && Added(before, jobs, more)
    {
      hide Chosen, Added, ModelState.Abs, Follows, NoLater, Due;
      var isDue := models[id].IsDue(now);
      if isDue {
        OneMore(seats, todo, due, now, id, before, jobs, jobs[id := JobsOf(jobs, id) + {seats[id].probeSeq}]);
        more := due[id := models[id].probeSeq];
        assert models[id].Abs().probeSeq == models[id].probeSeq by { SeqOf(models[id]); }
        Launch(id, now);
      } else {
        NotDue(seats, todo, due, now, id);
        more := due;
      }
    }

    lemma SeqOf(st: ModelState)
      ensures st.Abs().probeSeq == st.probeSeq
    {
    }

    /** The probes to run this round: exactly the seats that are listed, not confirmed and past their
        backoff, each under its current number. */
    method DueProbes(now: int) returns (due: map<string, nat>)
      requires Valid() && NoLater(log, now)
      modifies this`log, this`jobs
      ensures Valid() && NoLater(log, now) && old(log) <= log
      ensures Chosen(seats, {}, due, now) && Added(old(jobs), jobs, due)
    {
      hide Agree, Follows, Refines, NoLater, Due, Chosen, Added;
      SameKeys();
      due := map[];
      if setup.disabled {
        NobodyDue(now);
        NothingChosen(seats, {}, now, jobs);
        return;
      }
      var todo := models.Keys;
      NothingChosen(seats, models.Keys, now, jobs);
      while todo != {}
        invariant todo <= models.Keys
        invariant Valid() && NoLater(log, now) && old(log) <= log
        invariant Chosen(seats, todo, due, now) && Added(old(jobs), jobs, due)
        decreases todo
      {
        var id := Sorting.Pick(todo);
        due := Consider(id, due, now, todo, old(jobs));
        todo := todo - {id};
      }
    }

    /** The end of a poll round: every result of its probes is folded in, and the first round is over. */
    method EndRound(results: seq<ProbeResult>, now: int)
      requires Valid() && NoLater(log, now)
      requires forall r | r in results :: r.seqNo in JobsOf(jobs, r.id)
      modifies this, records
      ensures Valid() && NoLater(log, now) && old(log) <= log && polled
      ensures seats == Folded(old(seats), results, now) && jobs == old(jobs)
    {
      hide Agree, Follows, NoLater, ApplyProbe;
      for i := 0 to |results|
        invariant Valid() && NoLater(log, now) && old(log) <= log && jobs == old(jobs) && records == old(records)
        invariant seats == Folded(old(seats), results[..i], now)
      {
        assert results[..i + 1][..i] == results[..i];
        var r := results[i];
        ApplyProbeResult(r.id, r.seqNo, r.good, r.message, now);
      }
      assert results[..|results|] == results;
      CloseRound(now);
    }

    method CloseRound(now: int)
      requires Valid() && NoLater(log, now)
      modifies this`log, this`polled
      ensures Valid() && NoLater(log, now) && log == old(log) + [Entry("", Timed(RoundEnded, now))] && polled
    {
      hide Agree, Refines, NoLater;
      Recorded(setup, seats, jobs, polled, log, Entry("", Timed(RoundEnded, now)), seats, jobs, true);
      polled := true;
      log := log + [Entry("", Timed(RoundEnded, now))];
    }
  }

  datatype ProbeResult = ProbeResult(id: string, seqNo: nat, good: bool, message: string)

  /** Of the models outside todo, due names exactly those whose probe should run, each with the number
      its seat has now. */
  ghost predicate Chosen(seats: map<string, Seat>, todo: set<string>, due: map<string, nat>, now: int) {
    && (forall id :: id in due <==> id in seats && id !in todo && Due(seats[id], now))
    && (forall id | id in due :: due[id] == seats[id].probeSeq)
  }

  /** The probes under way grew by the due ones. */
  ghost predicate Added(before: map<string, set<nat>>, after: map<string, set<nat>>, due: map<string, nat>) {
    forall id: string :: JobsOf(after, id) == JobsOf(before, id) + if id in due then {due[id]} else {}
  }

  lemma OneMore(seats: map<string, Seat>, todo: set<string>, due: map<string, nat>, now: int, id: string,
                before: map<string, set<nat>>, jobs: map<string, set<nat>>, launched: map<string, set<nat>>)
    requires Chosen(seats, todo, due, now) && Added(before, jobs, due)
    requires id in todo && id in seats && Due(seats[id], now)
    requires launched == jobs[id := JobsOf(jobs, id) + {seats[id].probeSeq}]
    ensures Chosen(seats, todo - {id}, due[id := seats[id].probeSeq], now)
    ensures Added(before, launched, due[id := seats[id].probeSeq])
  {
  }

  lemma NotDue(seats: map<string, Seat>, todo: set<string>, due: map<string, nat>, now: int, id: string)
    requires Chosen(seats, todo, due, now) && id in todo && id in seats && !Due(seats[id], now)
    ensures Chosen(seats, todo - {id}, due, now)
  {
  }

  lemma NothingChosen(seats: map<string, Seat>, todo: set<string>, now: int, jobs: map<string, set<nat>>)
    requires forall id | id in seats :: id in todo || !Due(seats[id], now)
    ensures Chosen(seats, todo, map[], now) && Added(jobs, jobs, map[])
  {
  }

  function JobsOf(jobs: map<string, set<nat>>, id: string): set<nat> {
    if id in jobs then jobs[id] else {}
  }

  /** The seats after the results came in one after the other. */
  function Folded(seats: map<string, Seat>, results: seq<ProbeResult>, now: int): map<string, Seat> {
    if results == [] then seats
    else
      var before := Folded(seats, results[..|results| - 1], now);
      var r := results[|results| - 1];
      if r.id in before then before[r.id := ApplyProbe(before[r.id], r.seqNo, r.good, r.message, now)] else before
  }
}
