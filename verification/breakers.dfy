/** The circuit breaker of a seat, read off its event log alone, and the proof that the fields the
    tracker keeps say the same (internal/health/tracker.go, ReportFailure to stateLocked). */
module Breakers {
  import opened Seats

  /** A failure that counts toward the breaker: the loading shape of a probed seat does not. */
  predicate Counted(eligible: bool, e: Event) {
    e.Failed? && !(eligible && e.f.warmingSignal)
  }

  /** How long an opening by this failure lasts. */
  function CooldownFor(c: Config, f: Failure): int {
    if RetryAfterOf(c, f) > 0 then RetryAfterOf(c, f) else c.breakerCooldown
  }

  /** Counted failures since the last success, in the first n events. */
  function FailuresSinceSuccess(eligible: bool, log: seq<Timed>, n: nat): nat
    requires n <= |log|
  {
    if n == 0 || log[n - 1].e.Succeeded? then 0
    else FailuresSinceSuccess(eligible, log, n - 1) + if Counted(eligible, log[n - 1].e) then 1 else 0
  }

  /** The failure that opened the breaker, if the first n events leave it open: the latest opening
      with no success after it. */
  ghost function OpenedBy(c: Config, eligible: bool, log: seq<Timed>, n: nat): (o: Option<nat>)
    requires n <= |log|
    ensures o.Some? ==> o.value < n && Counted(eligible, log[o.value].e)
    decreases n, 0
  {
    if n == 0 || log[n - 1].e.Succeeded? then None
    else if Counted(eligible, log[n - 1].e) && Opens(c, eligible, log, n - 1) then Some(n - 1)
    else OpenedBy(c, eligible, log, n - 1)
  }

  /** Counted failure n opens the breaker: the upstream named its own cooldown, or it failed the trial,
      or it is the one too many on a closed breaker. */
  ghost predicate Opens(c: Config, eligible: bool, log: seq<Timed>, n: nat)
    requires n < |log| && Counted(eligible, log[n].e)
    decreases n, 2
  {
    || RetryAfterOf(c, log[n].e.f) > 0
    || TrialOut(c, eligible, log, n)
    || (OpenedBy(c, eligible, log, n).None? && FailuresSinceSuccess(eligible, log, n) + 1 >= c.breakerTrip)
  }

  /** A trial is out: someone asked after the opening's cooldown was over, and no counted failure has
      come in since. */
  ghost predicate TrialOut(c: Config, eligible: bool, log: seq<Timed>, n: nat)
    requires n <= |log|
    decreases n, 1
  {
    var o := OpenedBy(c, eligible, log, n);
    o.Some? && exists q: nat :: TrialFrom(c, eligible, log, o.value, q, n)
  }

  /** Query q started a trial of the opening o, and no counted failure has come in by n. */
  ghost predicate TrialFrom(c: Config, eligible: bool, log: seq<Timed>, o: nat, q: nat, n: nat)
    requires n <= |log| && o < n && Counted(eligible, log[o].e)
  {
    && o < q < n && log[q].e.Queried?
    && log[q].at - log[o].at >= CooldownFor(c, log[o].e.f)
    && forall k | q < k < n :: !Counted(eligible, log[k].e)
  }

  /** The log says the breaker denies at this time. */
  ghost predicate DeniedAt(c: Config, eligible: bool, log: seq<Timed>, n: nat, now: int)
    requires n <= |log|
  {
    var o := OpenedBy(c, eligible, log, n);
    o.Some? && now - log[o.value].at < CooldownFor(c, log[o.value].e.f)
  }

  // ----- the fields agree with the log --------------------------------------------------

  ghost predicate Agrees(c: Config, eligible: bool, log: seq<Timed>, n: nat, s: Seat)
    requires n <= |log|
  {
    var o := OpenedBy(c, eligible, log, n);
    && s.probe == eligible
    && s.breakerFails == FailuresSinceSuccess(eligible, log, n)
    && s.breakerOpen == o.Some?
    && s.halfOpen == TrialOut(c, eligible, log, n)
    && (o.Some? ==> s.breakerOpenedAt == log[o.value].at && CooldownOf(c, s) == CooldownFor(c, log[o.value].e.f))
  }

  /** An event that is neither a success, nor a counted failure, nor a query. */
  predicate Quiet(eligible: bool, e: Event) {
    !e.Succeeded? && !Counted(eligible, e) && !e.Queried?
  }

  lemma QuietStep(c: Config, eligible: bool, log: seq<Timed>, n: nat, s: Seat, t: Seat)
    requires n < |log| && Quiet(eligible, log[n].e)
    requires Agrees(c, eligible, log, n, s)
    requires t.probe == s.probe && t.breakerFails == s.breakerFails && t.breakerOpen == s.breakerOpen && t.halfOpen == s.halfOpen
    requires t.breakerOpenedAt == s.breakerOpenedAt && t.breakerCooldown == s.breakerCooldown
    ensures Agrees(c, eligible, log, n + 1, t)
  {
    TrialStays(c, eligible, log, n);
  }

  /** Events that are not counted failures or successes do not end a trial, and only a query starts one. */
  lemma TrialStays(c: Config, eligible: bool, log: seq<Timed>, n: nat)
    requires n < |log| && !Counted(eligible, log[n].e) && !log[n].e.Succeeded?
    ensures OpenedBy(c, eligible, log, n + 1) == OpenedBy(c, eligible, log, n)
    ensures TrialOut(c, eligible, log, n) ==> TrialOut(c, eligible, log, n + 1)
    ensures !log[n].e.Queried? && TrialOut(c, eligible, log, n + 1) ==> TrialOut(c, eligible, log, n)
  {
    assert OpenedBy(c, eligible, log, n + 1) == OpenedBy(c, eligible, log, n);
    if TrialOut(c, eligible, log, n) {
      var o := OpenedBy(c, eligible, log, n).value;
      var q: nat :| TrialFrom(c, eligible, log, o, q, n);
      assert TrialFrom(c, eligible, log, o, q, n + 1);
    }
    if TrialOut(c, eligible, log, n + 1) && !log[n].e.Queried? {
      var o := OpenedBy(c, eligible, log, n + 1).value;
      var q: nat :| TrialFrom(c, eligible, log, o, q, n + 1);
      assert TrialFrom(c, eligible, log, o, q, n);
    }
  }

  lemma QueryStep(c: Config, eligible: bool, log: seq<Timed>, n: nat, s: Seat)
    requires n < |log| && log[n].e.Queried?
    requires Agrees(c, eligible, log, n, s)
    ensures Agrees(c, eligible, log, n + 1, Query(c, s, log[n].at))
  {
    TrialStays(c, eligible, log, n);
    var o := OpenedBy(c, eligible, log, n);
    if o.Some? && log[n].at - log[o.value].at >= CooldownFor(c, log[o.value].e.f) {
      assert TrialFrom(c, eligible, log, o.value, n, n + 1);
    } else if TrialOut(c, eligible, log, n + 1) {
      var q: nat :| TrialFrom(c, eligible, log, OpenedBy(c, eligible, log, n + 1).value, q, n + 1);
      assert TrialFrom(c, eligible, log, o.value, q, n);
    }
  }

  lemma SuccessStep(c: Config, eligible: bool, log: seq<Timed>, n: nat, s: Seat)
    requires n < |log| && log[n].e.Succeeded? && s.probe == eligible
    ensures Agrees(c, eligible, log, n + 1, Succeed(s))
  {
    assert OpenedBy(c, eligible, log, n + 1) == None;
  }

  lemma FailureStep(c: Config, eligible: bool, log: seq<Timed>, n: nat, s: Seat)
    requires Sane(c) && n < |log| && log[n].e.Failed? && Counted(eligible, log[n].e)
    requires Agrees(c, eligible, log, n, s)
    ensures Agrees(c, eligible, log, n + 1, Fail(c, s, log[n].e.f, log[n].at))
  {
    assert Opens(c, eligible, log, n) <==>
           || RetryAfterOf(c, log[n].e.f) > 0 || TrialOut(c, eligible, log, n)
           || (OpenedBy(c, eligible, log, n).None? && FailuresSinceSuccess(eligible, log, n) + 1 >= c.breakerTrip);
    assert OpenedBy(c, eligible, log, n + 1) ==
           if Opens(c, eligible, log, n) then Some(n) else OpenedBy(c, eligible, log, n);
    NoTrialAfterFailure(c, eligible, log, n);
  }

  lemma NoTrialAfterFailure(c: Config, eligible: bool, log: seq<Timed>, n: nat)
    requires n < |log| && Counted(eligible, log[n].e)
    ensures !TrialOut(c, eligible, log, n + 1)
  {
    var o := OpenedBy(c, eligible, log, n + 1);
    if o.Some? {
      forall q: nat {:trigger TrialFrom(c, eligible, log, o.value, q, n + 1)}
        ensures !TrialFrom(c, eligible, log, o.value, q, n + 1)
      {
      }
    }
  }

  /** For every log, the breaker fields of the seat are what the log says: open since exactly the
      latest opening without a later success, half-open exactly while a trial is out, and counting
      exactly the failures since the last success. */
  lemma {:induction false} BreakerRefinesLog(c: Config, eligible: bool, log: seq<Timed>, n: nat)
    requires Sane(c) && n <= |log|
    ensures Agrees(c, eligible, log, n, Known(After(c, eligible, log, n), eligible))
    decreases n
  {
    hide Agrees, Fail, Query, Succeed, Observe, ApplyProbe;
    if n == 0 {
      FreshAgrees(c, eligible, log);
    } else {
      BreakerRefinesLog(c, eligible, log, n - 1);
      var w := After(c, eligible, log, n - 1);
      BreakerStep(c, eligible, log, n - 1, w);
    }
  }

  lemma FreshAgrees(c: Config, eligible: bool, log: seq<Timed>)
    ensures Agrees(c, eligible, log, 0, NewSeat(eligible))
  {
  }

  lemma BreakerStep(c: Config, eligible: bool, log: seq<Timed>, n: nat, w: World)
    requires Sane(c) && n < |log| && Agrees(c, eligible, log, n, Known(w, eligible))
    requires w.seat.None? ==> Known(w, eligible) == NewSeat(eligible)
    ensures Agrees(c, eligible, log, n + 1, Known(Next(c, eligible, w, log[n]), eligible))
  {
    hide Agrees, Fail, Query, Succeed, Observe, ApplyProbe;
    var s := Known(w, eligible);
    AgreesProbe(c, eligible, log, n, s);
    match log[n].e
    case Observed(ok) => ObserveKeepsBreaker(c, s, ok, log[n].at); QuietStep(c, eligible, log, n, s, Observe(c, s, ok, log[n].at));
    case ProbeDone(q, good, msg) =>
      ProbeKeepsBreaker(s, q, good, msg, log[n].at);
      QuietStep(c, eligible, log, n, s, s);
      QuietStep(c, eligible, log, n, s, ApplyProbe(s, q, good, msg, log[n].at));
    case Failed(f) =>
      if Counted(eligible, log[n].e) {
        FailureStep(c, eligible, log, n, s);
      } else {
        WarmingKeepsBreaker(c, s, f, log[n].at);
        QuietStep(c, eligible, log, n, s, Fail(c, s, f, log[n].at));
      }
    case Succeeded =>
      SuccessStep(c, eligible, log, n, s);
      if w.seat.None? {
        SuccessOfUnknown(c, eligible, log, n);
      }
    case Queried =>
      QueryStep(c, eligible, log, n, s);
      if w.seat.None? {
        QueryOfClosed(c, s, log[n].at);
      }
    case Launched => QuietStep(c, eligible, log, n, s, s);
    case Listed(a) => QuietStep(c, eligible, log, n, s, s.(absent := a));
    case RoundEnded => QuietStep(c, eligible, log, n, s, s);
  }

  lemma AgreesProbe(c: Config, eligible: bool, log: seq<Timed>, n: nat, s: Seat)
    requires n <= |log| && Agrees(c, eligible, log, n, s)
    ensures s.probe == eligible
  {
  }

  lemma SuccessOfUnknown(c: Config, eligible: bool, log: seq<Timed>, n: nat)
    requires n < |log| && log[n].e.Succeeded?
    ensures Agrees(c, eligible, log, n + 1, NewSeat(eligible))
  {
  }

  lemma QueryOfClosed(c: Config, s: Seat, now: int)
    ensures !s.breakerOpen ==> Query(c, s, now) == s
  {
  }

  predicate SameBreaker(s: Seat, t: Seat) {
    && t.probe == s.probe && t.breakerFails == s.breakerFails && t.breakerOpen == s.breakerOpen && t.halfOpen == s.halfOpen
    && t.breakerOpenedAt == s.breakerOpenedAt && t.breakerCooldown == s.breakerCooldown
  }

  lemma ObserveKeepsBreaker(c: Config, s: Seat, ok: bool, now: int)
    ensures SameBreaker(s, Observe(c, s, ok, now))
  {
  }

  lemma ProbeKeepsBreaker(s: Seat, q: nat, good: bool, msg: string, now: int)
    ensures SameBreaker(s, ApplyProbe(s, q, good, msg, now))
  {
  }

  lemma WarmingKeepsBreaker(c: Config, s: Seat, f: Failure, now: int)
    requires s.probe && f.warmingSignal
    ensures SameBreaker(s, Fail(c, s, f, now))
  {
  }

  // ----- what the log's breaker promises ------------------------------------------------

  /** The verdict denies on the breaker's account exactly from an opening until that opening's own
      cooldown is over, unless a success came first. */
  lemma DeniesExactly(c: Config, eligible: bool, log: seq<Timed>, now: int)
    requires Sane(c)
    ensures var w := After(c, eligible, log, |log|);
            VerdictOf(c, w.seat, w.polled, now) == Verdict(Unavailable, FromPassive) <==>
            DeniedAt(c, eligible, log, |log|, now)
  {
    BreakerRefinesLog(c, eligible, log, |log|);
    hide After, Next;
  }

  /** A closed breaker has seen fewer counted failures than the limit since the last success. */
  lemma {:induction false} ClosedMeansBelowLimit(c: Config, eligible: bool, log: seq<Timed>, n: nat)
    requires Sane(c) && n <= |log| && OpenedBy(c, eligible, log, n).None?
    ensures FailuresSinceSuccess(eligible, log, n) < c.breakerTrip
    decreases n
  {
    if n > 0 && !log[n - 1].e.Succeeded? {
      ClosedMeansBelowLimit(c, eligible, log, n - 1);
    }
  }

  ghost predicate Ordered(log: seq<Timed>) {
    forall i, j | 0 <= i < j < |log| :: log[i].at <= log[j].at
  }

  /** While the breaker denies, a counted failure without a cooldown of its own changes neither the
      opening nor, with it, the end of the denial. */
  lemma PlainFailureNeverExtends(c: Config, eligible: bool, log: seq<Timed>, n: nat)
    requires n < |log| && Ordered(log) && Counted(eligible, log[n].e)
    requires DeniedAt(c, eligible, log, n, log[n].at) && RetryAfterOf(c, log[n].e.f) == 0
    ensures OpenedBy(c, eligible, log, n + 1) == OpenedBy(c, eligible, log, n)
  {
    NoTrialWhileDenying(c, eligible, log, n, log[n].at);
    assert !Opens(c, eligible, log, n);
  }

  lemma NoTrialWhileDenying(c: Config, eligible: bool, log: seq<Timed>, n: nat, now: int)
    requires n <= |log| && DeniedAt(c, eligible, log, n, now)
    requires forall i | 0 <= i < n :: log[i].at <= now
    ensures !TrialOut(c, eligible, log, n)
  {
    var o := OpenedBy(c, eligible, log, n).value;
    forall q: nat {:trigger TrialFrom(c, eligible, log, o, q, n)}
      ensures !TrialFrom(c, eligible, log, o, q, n)
    {
    }
  }

  /** A counted failure while a trial is out starts a fresh cooldown at once. */
  lemma FailedTrialReopens(c: Config, eligible: bool, log: seq<Timed>, n: nat, now: int)
    requires n < |log| && Sane(c) && Counted(eligible, log[n].e) && TrialOut(c, eligible, log, n)
    ensures OpenedBy(c, eligible, log, n + 1) == Some(n)
    ensures DeniedAt(c, eligible, log, n + 1, now) <==> now - log[n].at < CooldownFor(c, log[n].e.f)
  {
  }

  /** No cooldown outlasts the larger of the two configured limits, whatever the upstream asked for. */
  lemma CooldownBounded(c: Config, eligible: bool, log: seq<Timed>, n: nat, now: int)
    requires Sane(c) && n <= |log| && DeniedAt(c, eligible, log, n, now)
    ensures var o := OpenedBy(c, eligible, log, n).value;
            0 < CooldownFor(c, log[o].e.f) <= (if c.breakerCooldown >= c.maxRetryAfter then c.breakerCooldown else c.maxRetryAfter)
  {
  }

  // ----- how many trials a half-open breaker admits -------------------------------------

  /** Event k is a query that an open breaker answered with "available". */
  ghost predicate Admits(c: Config, eligible: bool, log: seq<Timed>, k: nat)
    requires k < |log|
  {
    log[k].e.Queried? && OpenedBy(c, eligible, log, k).Some? && !DeniedAt(c, eligible, log, k, log[k].at)
  }

  /** The seat's own answer to that query says the same. */
  lemma AdmitsIsVerdict(c: Config, eligible: bool, log: seq<Timed>, k: nat)
    requires Sane(c) && k < |log|
    ensures var w := After(c, eligible, log, k);
            Admits(c, eligible, log, k) <==>
            log[k].e.Queried? && VerdictOf(c, w.seat, w.polled, log[k].at) == Verdict(Available, FromPassive)
  {
    BreakerRefinesLog(c, eligible, log, k);
    hide After, Next;
  }

  ghost function TrialsAdmitted(c: Config, eligible: bool, log: seq<Timed>, from: nat, n: nat): nat
    requires from <= n <= |log|
    decreases n
  {
    if n == from then 0
    else TrialsAdmitted(c, eligible, log, from, n - 1) + if Admits(c, eligible, log, n - 1) then 1 else 0
  }

  /** Event k asks at or after the end of the cooldown of the opening o. */
  predicate AsksLate(c: Config, log: seq<Timed>, o: nat, k: nat)
    requires o < |log| && k < |log| && log[o].e.Failed?
  {
    log[k].e.Queried? && log[k].at - log[o].at >= CooldownFor(c, log[o].e.f)
  }

  function LateQueries(c: Config, log: seq<Timed>, o: nat, from: nat, n: nat): nat
    requires o < |log| && from <= n <= |log| && log[o].e.Failed?
    decreases n
  {
    if n == from then 0 else LateQueries(c, log, o, from, n - 1) + if AsksLate(c, log, o, n - 1) then 1 else 0
  }

  /** An opening that stands at the end has stood ever since. */
  lemma {:induction false} OpeningStood(c: Config, eligible: bool, log: seq<Timed>, o: nat, k: nat, n: nat)
    requires o < k <= n <= |log| && OpenedBy(c, eligible, log, n) == Some(o)
    ensures OpenedBy(c, eligible, log, k) == Some(o)
    decreases n
  {
    if k < n {
      hide Opens;
      OpeningStood(c, eligible, log, o, k, n - 1);
    }
  }

  /** Without a report since, whatever else happened, an opening stands. */
  lemma {:induction false} StandsWithoutReport(c: Config, eligible: bool, log: seq<Timed>, o: nat, n: nat)
    requires o < n <= |log| && Counted(eligible, log[o].e) && Opens(c, eligible, log, o)
    requires forall k | o < k < n :: !log[k].e.Succeeded? && !Counted(eligible, log[k].e)
    ensures OpenedBy(c, eligible, log, n) == Some(o)
    decreases n
  {
    if o + 1 < n {
      hide Opens;
      StandsWithoutReport(c, eligible, log, o, n - 1);
    }
  }

  /** For as long as an opening stands, with any polls, probes, listings and failures in between, the
      trials it admits are exactly the queries made once its cooldown is over. */
  lemma {:induction false} EveryQueryIsATrial(c: Config, eligible: bool, log: seq<Timed>, o: nat, n: nat)
    requires o < n <= |log| && OpenedBy(c, eligible, log, n) == Some(o)
    ensures TrialsAdmitted(c, eligible, log, o + 1, n) == LateQueries(c, log, o, o + 1, n)
    decreases n
  {
    if o + 1 < n {
      OpeningStood(c, eligible, log, o, n - 1, n);
      hide OpenedBy;
      EveryQueryIsATrial(c, eligible, log, o, n - 1);
    }
  }

  lemma {:induction false} AtMostOneLate(c: Config, log: seq<Timed>, o: nat, from: nat, n: nat)
    requires o < |log| && from <= n <= |log| && log[o].e.Failed?
    ensures LateQueries(c, log, o, from, n) == 0 <==> forall k | from <= k < n :: !AsksLate(c, log, o, k)
    ensures LateQueries(c, log, o, from, n) <= 1 <==>
            forall j, k | from <= j < k < n :: !(AsksLate(c, log, o, j) && AsksLate(c, log, o, k))
    decreases n
  {
    hide AsksLate;
    if from < n {
      AtMostOneLate(c, log, o, from, n - 1);
    }
  }

  /** The documentation promises one trial per cooldown. An opening keeps that promise exactly when it is
      not asked twice between the end of its cooldown and the report that ends it. */
  lemma OneTrialIffOneQuery(c: Config, eligible: bool, log: seq<Timed>, o: nat, n: nat)
    requires o < n <= |log| && OpenedBy(c, eligible, log, n) == Some(o)
    ensures TrialsAdmitted(c, eligible, log, o + 1, n) <= 1 <==>
            forall j, k | o < j < k < n :: !(AsksLate(c, log, o, j) && AsksLate(c, log, o, k))
  {
    EveryQueryIsATrial(c, eligible, log, o, n);
    AtMostOneLate(c, log, o, o + 1, n);
    hide TrialsAdmitted, LateQueries, OpenedBy;
  }

  /** Three failures, then two queries a cooldown later: both are let through. */
  lemma TwoTrialsWitness()
    ensures var c := Config(2, 3, 60, 600);
            var f := Timed(Failed(Failure(false, 0, "")), 0);
            var log := [f, f, f, Timed(Queried, 60), Timed(Queried, 60)];
            TrialsAdmitted(c, false, log, 3, 5) == 2
  {
    var c := Config(2, 3, 60, 600);
    var f := Timed(Failed(Failure(false, 0, "")), 0);
    var log := [f, f, f, Timed(Queried, 60), Timed(Queried, 60)];
    assert FailuresSinceSuccess(false, log, 0) == 0;
    assert FailuresSinceSuccess(false, log, 1) == 1;
    assert FailuresSinceSuccess(false, log, 2) == 2;
    assert OpenedBy(c, false, log, 0) == None;
    assert !TrialOut(c, false, log, 0);
    assert OpenedBy(c, false, log, 1) == None;
    assert !TrialOut(c, false, log, 1);
    assert OpenedBy(c, false, log, 2) == None;
    assert Opens(c, false, log, 2);
    assert OpenedBy(c, false, log, 3) == Some(2);
    StandsWithoutReport(c, false, log, 2, 5);
    EveryQueryIsATrial(c, false, log, 2, 5);
  }
}
