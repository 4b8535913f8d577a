/** The availability of one seat as a state machine over its events: poll hysteresis, the generation
    probe with its sequence numbers, the circuit breaker, the listing verdict
    (internal/health/tracker.go). Times are nanoseconds on one clock. */
module Seats {
  import opened ProbeBackoffs

  datatype Option<+T> = None | Some(value: T)

  datatype Poll = PollUnknown | PollAvailable | PollUnavailable

  datatype State = Available | Unavailable | Warming | Absent | Unknown

  datatype Source = FromPoll | FromPassive | FromAssumed | FromProbe | FromInventory

  datatype Verdict = Verdict(state: State, source: Source)

  /** What the tracker reads off a proxy failure. */
  datatype Failure = Failure(warmingSignal: bool, retryAfter: int, message: string)

  datatype Config = Config(downAfter: int, breakerTrip: int, breakerCooldown: int, maxRetryAfter: int)

  /** The defaults NewTracker puts in place leave every limit positive. */
  predicate Sane(c: Config) {
    c.downAfter > 0 && c.breakerTrip > 0 && c.breakerCooldown > 0 && c.maxRetryAfter > 0
  }

  datatype Seat = Seat(
    pollState: Poll, pollFails: int,
    breakerFails: int, breakerOpen: bool, breakerOpenedAt: int, halfOpen: bool, breakerCooldown: int,
    probe: bool, confirmed: bool, probeSeq: nat, probeFails: int, probeErr: string, probeNextAt: Option<int>,
    warmingSince: int, absent: bool)

  function NewSeat(probe: bool): Seat {
    Seat(PollUnknown, 0, 0, false, 0, false, 0, probe, false, 0, 0, "", None, 0, false)
  }

  // ----- one event ----------------------------------------------------------------------

  function Warm(s: Seat, why: string, now: int): Seat {
    s.(confirmed := false, probeSeq := s.probeSeq + 1, probeFails := 0, probeErr := why, probeNextAt := None, warmingSince := now)
  }

  function Observe(c: Config, s: Seat, ok: bool, now: int): Seat {
    if ok then
      (if s.pollState != PollAvailable && s.probe then Warm(s, "", now) else s).(pollFails := 0, pollState := PollAvailable)
    else
      s.(pollFails := s.pollFails + 1,
         pollState := if s.pollFails + 1 >= c.downAfter then PollUnavailable else s.pollState)
  }

  /** The seat is listed, not yet confirmed, and past its backoff. */
  predicate Due(s: Seat, now: int) {
    s.probe && !s.confirmed && s.pollState == PollAvailable && (s.probeNextAt.None? || now >= s.probeNextAt.value)
  }

  /** A probe result; good covers both a generation and a rejected probe body. */
  function ApplyProbe(s: Seat, seqNo: nat, good: bool, message: string, now: int): Seat {
    if s.probeSeq != seqNo || !s.probe || s.confirmed then s
    else if good then s.(confirmed := true, probeErr := "")
    else s.(probeFails := s.probeFails + 1, probeErr := message, probeNextAt := Some(now + ProbeBackoff(s.probeFails + 1)))
  }

  function RetryAfterOf(c: Config, f: Failure): int {
    if f.retryAfter <= 0 then 0 else if f.retryAfter > c.maxRetryAfter then c.maxRetryAfter else f.retryAfter
  }

  function CooldownOf(c: Config, s: Seat): int {
    if s.breakerCooldown > 0 then s.breakerCooldown else c.breakerCooldown
  }

  function Fail(c: Config, s: Seat, f: Failure, now: int): Seat {
    if s.probe && f.warmingSignal then
      if s.confirmed || s.probeErr == "" then
        Warm(s, f.message, now).(probeFails := 1, probeNextAt := Some(now + ProbeBackoff(1)))
      else s
    else
      var trial := s.breakerOpen && s.halfOpen;
      var t := s.(halfOpen := false, breakerFails := s.breakerFails + 1);
      var after := RetryAfterOf(c, f);
      if !trial && after == 0 && (t.breakerOpen || t.breakerFails < c.breakerTrip) then t
      else t.(breakerOpen := true, breakerOpenedAt := now, breakerCooldown := after)
  }

  function Succeed(s: Seat): Seat {
    var t := s.(breakerFails := 0, breakerOpen := false, halfOpen := false, breakerCooldown := 0);
    if s.probe && !s.confirmed then t.(confirmed := true, probeErr := "") else t
  }

  predicate Denies(c: Config, s: Seat, now: int) {
    s.breakerOpen && now - s.breakerOpenedAt < CooldownOf(c, s)
  }

  function VerdictOf(c: Config, s: Option<Seat>, polled: bool, now: int): Verdict {
    if s.None? then
      if !polled then Verdict(Unknown, FromAssumed) else Verdict(Available, FromAssumed)
    else
      var st := s.value;
      if st.breakerOpen then
        if Denies(c, st, now) then Verdict(Unavailable, FromPassive) else Verdict(Available, FromPassive)
      else if st.pollState == PollUnavailable then Verdict(Unavailable, FromPoll)
      else if st.absent then Verdict(Absent, FromInventory)
      else if st.pollState == PollAvailable then
        if st.probe && !st.confirmed then Verdict(Warming, FromProbe) else Verdict(Available, FromPoll)
      else if !polled then Verdict(Unknown, FromAssumed)
      else Verdict(Available, FromAssumed)
  }

  predicate Routable(v: Verdict) {
    v.state != Unavailable && v.state != Warming && v.state != Absent
  }

  /** Asking for the verdict admits a trial once the cooldown is over. */
  function Query(c: Config, s: Seat, now: int): Seat {
    if s.breakerOpen && !Denies(c, s, now) then s.(halfOpen := true) else s
  }

  // ----- runs ---------------------------------------------------------------------------

  /** What can happen to a seat. A probe is launched with the sequence number of its time and its
      result arrives at any later point, in any order with everything else. */
  datatype Event =
    | Observed(ok: bool)
    | Launched
    | ProbeDone(seqNo: nat, good: bool, message: string)
    | Failed(f: Failure)
    | Succeeded
    | Queried
    | Listed(absent: bool)
    | RoundEnded

  datatype Timed = Timed(e: Event, at: int)

  /** The tracker's view of one seat: its bookkeeping once created, the launched probes, the flag of
      a completed first round. */
  datatype World = World(seat: Option<Seat>, jobs: set<nat>, polled: bool)

  const START := World(None, {}, false)

  /** The bookkeeping is created on first sight, with its eligibility fixed for good. */
  function Known(w: World, eligible: bool): Seat {
    if w.seat.Some? then w.seat.value else NewSeat(eligible)
  }

  function Next(c: Config, eligible: bool, w: World, t: Timed): World {
    match t.e
    case Observed(ok) => w.(seat := Some(Observe(c, Known(w, eligible), ok, t.at)))
    case Launched => if w.seat.Some? then w.(jobs := w.jobs + {w.seat.value.probeSeq}) else w
    case ProbeDone(q, good, msg) => if w.seat.Some? then w.(seat := Some(ApplyProbe(w.seat.value, q, good, msg, t.at))) else w
    case Failed(f) => w.(seat := Some(Fail(c, Known(w, eligible), f, t.at)))
    case Succeeded => if w.seat.Some? then w.(seat := Some(Succeed(w.seat.value))) else w
    case Queried => if w.seat.Some? then w.(seat := Some(Query(c, w.seat.value, t.at))) else w
    case Listed(a) => w.(seat := Some(Known(w, eligible).(absent := a)))
    case RoundEnded => w.(polled := true)
  }

  /** What an event makes of the record of its seat. */
  function Fold(c: Config, s: Seat, t: Timed): Seat {
    match t.e
    case Observed(ok) => Observe(c, s, ok, t.at)
    case ProbeDone(q, good, message) => ApplyProbe(s, q, good, message, t.at)
    case Failed(f) => Fail(c, s, f, t.at)
    case Succeeded => Succeed(s)
    case Queried => Query(c, s, t.at)
    case Listed(a) => s.(absent := a)
    case _ => s
  }

  /** An event that moves the record of its seat, creating it where the event may. */
  predicate Moves(known: bool, e: Event) {
    e.Observed? || e.Failed? || e.Listed? || (known && (e.ProbeDone? || e.Succeeded? || e.Queried?))
  }

  predicate Enabled(w: World, t: Timed) {
    match t.e
    case Launched => w.seat.Some? && Due(w.seat.value, t.at)
    case ProbeDone(q, _, _) => q in w.jobs
    case _ => true
  }

  /** The world after the first n events of a log. */
  function After(c: Config, eligible: bool, log: seq<Timed>, n: nat): World
    requires n <= |log|
  {
    if n == 0 then START else Next(c, eligible, After(c, eligible, log, n - 1), log[n - 1])
  }

  /** A log that can happen: time does not run backwards, and only launched probes report. */
  ghost predicate Possible(c: Config, eligible: bool, log: seq<Timed>) {
    && Sane(c)
    && (forall i | 0 <= i < |log| :: Enabled(After(c, eligible, log, i), log[i]))
    && (forall i, j | 0 <= i < j < |log| :: log[i].at <= log[j].at)
  }

  function SeqAt(c: Config, eligible: bool, log: seq<Timed>, n: nat): nat
    requires n <= |log|
  {
    Known(After(c, eligible, log, n), eligible).probeSeq
  }

  // ----- a confirmation is earned -------------------------------------------------------

  /** Event i bears witness for the sequence number: a success of a seat that has a record, or the good
      result of a probe that was launched under that number. */
  ghost predicate Witness(c: Config, eligible: bool, log: seq<Timed>, i: nat, seqNo: nat)
    requires i < |log|
  {
    || (log[i].e.Succeeded? && After(c, eligible, log, i).seat.Some?)
    || (log[i].e.ProbeDone? && log[i].e.good && log[i].e.seqNo == seqNo && LaunchedBefore(c, eligible, log, i, seqNo))
  }

  ghost predicate LaunchedBefore(c: Config, eligible: bool, log: seq<Timed>, i: nat, seqNo: nat)
    requires i <= |log|
  {
    exists l: nat :: l < i && log[l].e.Launched? && SeqAt(c, eligible, log, l) == seqNo
  }

  /** Between event i and the end of the first n events the seat did not enter warming. */
  ghost predicate SameWarmUp(c: Config, eligible: bool, log: seq<Timed>, i: nat, n: nat)
    requires i <= n <= |log|
  {
    forall j | i <= j <= n :: SeqAt(c, eligible, log, j) == SeqAt(c, eligible, log, n)
  }

  ghost predicate Earned(c: Config, eligible: bool, log: seq<Timed>, n: nat)
    requires n <= |log|
  {
    exists i: nat :: i < n && Witness(c, eligible, log, i, SeqAt(c, eligible, log, n)) && SameWarmUp(c, eligible, log, i, n)
  }

  /** What one event can do to the seat, apart from its breaker: entering warming is the only thing
      that moves the sequence number, and it moves it up and voids the confirmation; only a success or
      a good result under the current number confirms; only an observation moves the poll state, and a
      probed seat that comes up enters warming. */
  ghost predicate StepFacts(c: Config, s: Seat, t: Seat, x: Timed) {
    && t.probe == s.probe
    && s.probeSeq <= t.probeSeq <= s.probeSeq + 1
    && (t.probeSeq > s.probeSeq ==> !t.confirmed)
    && (t.probeSeq == s.probeSeq && s.confirmed ==> t.confirmed)
    && (t.probeSeq == s.probeSeq && t.confirmed && !s.confirmed ==>
          x.e.Succeeded? || (x.e.ProbeDone? && x.e.good && x.e.seqNo == s.probeSeq))
    && t.pollFails == (if x.e.Observed? then if x.e.ok then 0 else s.pollFails + 1 else s.pollFails)
    && t.pollState == (if x.e.Observed? then
                         if x.e.ok then PollAvailable
                         else if s.pollFails + 1 >= c.downAfter then PollUnavailable
                         else s.pollState
                       else s.pollState)
    && (t.pollState == PollAvailable && s.pollState != PollAvailable && s.probe ==> t.probeSeq == s.probeSeq + 1)
  }

  lemma ObserveFacts(c: Config, s: Seat, ok: bool, at: int)
    ensures StepFacts(c, s, Observe(c, s, ok, at), Timed(Observed(ok), at))
  {
  }

  lemma ProbeFacts(c: Config, s: Seat, q: nat, good: bool, message: string, at: int)
    ensures StepFacts(c, s, ApplyProbe(s, q, good, message, at), Timed(ProbeDone(q, good, message), at))
  {
    hide ProbeBackoff;
  }

  lemma FailFacts(c: Config, s: Seat, f: Failure, at: int)
    ensures StepFacts(c, s, Fail(c, s, f, at), Timed(Failed(f), at))
  {
    hide ProbeBackoff;
  }

  lemma SuccessFacts(c: Config, s: Seat, at: int)
    ensures StepFacts(c, s, Succeed(s), Timed(Succeeded, at))
  {
  }

  lemma Step(c: Config, eligible: bool, w: World, x: Timed)
    ensures StepFacts(c, Known(w, eligible), Known(Next(c, eligible, w, x), eligible), x)
  {
    hide StepFacts, Observe, ApplyProbe, Fail, Succeed;
    var s := Known(w, eligible);
    match x.e
    case Observed(ok) => ObserveFacts(c, s, ok, x.at);
    case ProbeDone(q, good, message) =>
      ProbeFacts(c, s, q, good, message, x.at);
      UnchangedFacts(c, s, s, x);
    case Failed(f) => FailFacts(c, s, f, x.at);
    case Succeeded =>
      SuccessFacts(c, s, x.at);
      UnchangedFacts(c, s, s, x);
    case Queried => UnchangedFacts(c, s, Query(c, s, x.at), x); UnchangedFacts(c, s, s, x);
    case Listed(a) => UnchangedFacts(c, s, s.(absent := a), x);
    case Launched => UnchangedFacts(c, s, s, x);
    case RoundEnded => UnchangedFacts(c, s, s, x);
  }

  /** An event that leaves poll and probe alone. */
  lemma UnchangedFacts(c: Config, s: Seat, t: Seat, x: Timed)
    requires !x.e.Observed?
    requires t == s.(absent := t.absent, halfOpen := t.halfOpen)
    ensures StepFacts(c, s, t, x)
  {
  }

  lemma StepOf(c: Config, eligible: bool, log: seq<Timed>, n: nat)
    requires 0 < n <= |log|
    ensures StepFacts(c, Known(After(c, eligible, log, n - 1), eligible), Known(After(c, eligible, log, n), eligible), log[n - 1])
  {
    hide StepFacts, Next;
    Step(c, eligible, After(c, eligible, log, n - 1), log[n - 1]);
  }

  lemma KnownNext(c: Config, eligible: bool, w: World, x: Timed)
    ensures Known(Next(c, eligible, w, x), eligible) == if Moves(w.seat.Some?, x.e) then Fold(c, Known(w, eligible), x) else Known(w, eligible)
  {
    hide Observe, ApplyProbe, Fail, Succeed, Query;
  }

  lemma {:induction false} SeqGrows(c: Config, eligible: bool, log: seq<Timed>, i: nat, j: nat)
    requires i <= j <= |log|
    ensures SeqAt(c, eligible, log, i) <= SeqAt(c, eligible, log, j)
    decreases j
  {
    if i < j {
      SeqGrows(c, eligible, log, i, j - 1);
      StepOf(c, eligible, log, j);
      hide Next;
    }
  }

  lemma {:induction false} JobsWereLaunched(c: Config, eligible: bool, log: seq<Timed>, n: nat, q: nat)
    requires n <= |log| && q in After(c, eligible, log, n).jobs
    ensures LaunchedBefore(c, eligible, log, n, q)
    decreases n
  {
    hide Observe, ApplyProbe, Fail, Succeed, Query;
    var w := After(c, eligible, log, n - 1);
    if q in w.jobs {
      JobsWereLaunched(c, eligible, log, n - 1, q);
      var l: nat :| l < n - 1 && log[l].e.Launched? && SeqAt(c, eligible, log, l) == q;
      assert l < n && log[l].e.Launched?;
    } else {
      assert log[n - 1].e.Launched? && SeqAt(c, eligible, log, n - 1) == q;
    }
  }

  lemma EarnedStays(c: Config, eligible: bool, log: seq<Timed>, n: nat)
    requires 0 < n <= |log| && Earned(c, eligible, log, n - 1)
    requires SeqAt(c, eligible, log, n) == SeqAt(c, eligible, log, n - 1)
    ensures Earned(c, eligible, log, n)
  {
    hide SeqAt, Witness;
    var q := SeqAt(c, eligible, log, n);
    var i: nat :| i < n - 1 && Witness(c, eligible, log, i, q) && SameWarmUp(c, eligible, log, i, n - 1);
    assert SameWarmUp(c, eligible, log, i, n);
  }

  lemma EarnedNow(c: Config, eligible: bool, log: seq<Timed>, n: nat)
    requires 0 < n <= |log| && Witness(c, eligible, log, n - 1, SeqAt(c, eligible, log, n))
    requires SeqAt(c, eligible, log, n) == SeqAt(c, eligible, log, n - 1)
    ensures Earned(c, eligible, log, n)
  {
    hide SeqAt, Witness;
    assert SameWarmUp(c, eligible, log, n - 1, n);
  }

  lemma {:induction false} ConfirmedIsEarned(c: Config, eligible: bool, log: seq<Timed>, n: nat)
    requires Possible(c, eligible, log) && n <= |log|
    ensures Known(After(c, eligible, log, n), eligible).confirmed ==> Earned(c, eligible, log, n)
    decreases n
  {
    hide Next, Earned, Witness, Possible;
    if n > 0 {
      ConfirmedIsEarned(c, eligible, log, n - 1);
      StepOf(c, eligible, log, n);
      var s, t := Known(After(c, eligible, log, n - 1), eligible), Known(After(c, eligible, log, n), eligible);
      if t.confirmed && s.confirmed {
        EarnedStays(c, eligible, log, n);
      } else if t.confirmed {
        NoRecordNoChange(c, eligible, After(c, eligible, log, n - 1), log[n - 1]);
        WitnessNow(c, eligible, log, n - 1, t.probeSeq);
        EarnedNow(c, eligible, log, n);
      }
    }
  }

  /** Without a record, a success or a probe result leaves no trace. */
  lemma NoRecordNoChange(c: Config, eligible: bool, w: World, x: Timed)
    ensures w.seat.None? && (x.e.Succeeded? || x.e.ProbeDone?) ==> Next(c, eligible, w, x) == w
  {
  }

  /** A witness confirms a probed seat on the spot. */
  lemma WitnessConfirms(c: Config, eligible: bool, w: World, x: Timed)
    requires eligible && w.seat.Some? && w.seat.value.probe
    requires x.e.Succeeded? || (x.e.ProbeDone? && x.e.good && x.e.seqNo == w.seat.value.probeSeq)
    ensures Known(Next(c, eligible, w, x), eligible).confirmed
  {
  }

  /** A probe result that was launched under a number comes to a seat that has a record. */
  lemma {:induction false} LaunchedHasRecord(c: Config, eligible: bool, log: seq<Timed>, l: nat, n: nat)
    requires Possible(c, eligible, log) && l < n <= |log| && log[l].e.Launched?
    ensures After(c, eligible, log, n).seat.Some?
    decreases n
  {
    hide Next, Due;
    if l == n - 1 {
      assert Enabled(After(c, eligible, log, l), log[l]);
    } else {
      LaunchedHasRecord(c, eligible, log, l, n - 1);
    }
    RecordStays(c, eligible, After(c, eligible, log, n - 1), log[n - 1]);
  }

  lemma RecordStays(c: Config, eligible: bool, w: World, x: Timed)
    ensures w.seat.Some? ==> Next(c, eligible, w, x).seat.Some?
  {
    hide Observe, ApplyProbe, Fail, Succeed, Query;
  }

  /** And it stays confirmed as long as it does not enter warming. */
  lemma {:induction false} EarnedConfirms(c: Config, eligible: bool, log: seq<Timed>, i: nat, n: nat)
    requires Possible(c, eligible, log) && eligible && i < n <= |log|
    requires Witness(c, eligible, log, i, SeqAt(c, eligible, log, n)) && SameWarmUp(c, eligible, log, i, n)
    ensures Known(After(c, eligible, log, n), eligible).confirmed
    decreases n
  {
    hide Next, Possible;
    StepOf(c, eligible, log, n);
    if i == n - 1 {
      var w := After(c, eligible, log, i);
      if log[i].e.ProbeDone? {
        var l: nat :| l < i && log[l].e.Launched? && SeqAt(c, eligible, log, l) == log[i].e.seqNo;
        LaunchedHasRecord(c, eligible, log, l, i);
      }
      ListedSeatsWarmedUp(c, eligible, log, i);
      WitnessConfirms(c, eligible, w, log[i]);
    } else {
      assert SeqAt(c, eligible, log, n - 1) == SeqAt(c, eligible, log, n);
      assert SameWarmUp(c, eligible, log, i, n - 1);
      EarnedConfirms(c, eligible, log, i, n - 1);
    }
  }

  /** A probed seat is confirmed exactly if, since it last entered warming, it served a request or had a
      probe of that warm-up come back good. */
  lemma ConfirmedExactly(c: Config, eligible: bool, log: seq<Timed>, n: nat)
    requires Possible(c, eligible, log) && eligible && n <= |log|
    ensures Known(After(c, eligible, log, n), eligible).confirmed <==> Earned(c, eligible, log, n)
  {
    hide Next, Possible, Witness, SameWarmUp;
    ConfirmedIsEarned(c, eligible, log, n);
    if Earned(c, eligible, log, n) {
      var i: nat :| i < n && Witness(c, eligible, log, i, SeqAt(c, eligible, log, n)) && SameWarmUp(c, eligible, log, i, n);
      EarnedConfirms(c, eligible, log, i, n);
    }
  }

  // ----- entering warming ---------------------------------------------------------------

  /** The event sends the seat into warming: a probed seat comes up on the poll, or fails the way a loading
      model does while it is confirmed or has nothing on record against it. */
  predicate Warms(eligible: bool, w: World, x: Timed) {
    var s := Known(w, eligible);
    s.probe && match x.e
               case Observed(ok) => ok && s.pollState != PollAvailable
               case Failed(f) => f.warmingSignal && (s.confirmed || s.probeErr == "")
               case _ => false
  }

  /** Nothing else moves the number. */
  lemma WarmsExactly(c: Config, eligible: bool, log: seq<Timed>, n: nat)
    requires n < |log|
    ensures SeqAt(c, eligible, log, n + 1) == SeqAt(c, eligible, log, n) + if Warms(eligible, After(c, eligible, log, n), log[n]) then 1 else 0
  {
    NumberStep(c, eligible, After(c, eligible, log, n), log[n]);
    hide Next, Warms, Known;
  }

  lemma NumberOfObservation(c: Config, s: Seat, ok: bool, at: int)
    ensures Observe(c, s, ok, at).probeSeq == s.probeSeq + if s.probe && ok && s.pollState != PollAvailable then 1 else 0
  {
  }

  lemma NumberOfFailure(c: Config, s: Seat, f: Failure, at: int)
    ensures Fail(c, s, f, at).probeSeq == s.probeSeq + if s.probe && f.warmingSignal && (s.confirmed || s.probeErr == "") then 1 else 0
  {
    hide ProbeBackoff, RetryAfterOf;
  }

  lemma NumberOtherwise(c: Config, s: Seat, q: nat, good: bool, message: string, at: int)
    ensures ApplyProbe(s, q, good, message, at).probeSeq == s.probeSeq && Succeed(s).probeSeq == s.probeSeq && Query(c, s, at).probeSeq == s.probeSeq
  {
    hide ProbeBackoff;
  }

  lemma NumberStep(c: Config, eligible: bool, w: World, x: Timed)
    ensures Known(Next(c, eligible, w, x), eligible).probeSeq == Known(w, eligible).probeSeq + if Warms(eligible, w, x) then 1 else 0
  {
    KnownNext(c, eligible, w, x);
    hide Next, Known, Observe, ApplyProbe, Fail, Succeed, Query;
    var s := Known(w, eligible);
    match x.e
    case Observed(ok) => NumberOfObservation(c, s, ok, x.at);
    case ProbeDone(q, good, message) => NumberOtherwise(c, s, q, good, message, x.at);
    case Failed(f) => NumberOfFailure(c, s, f, x.at);
    case _ => NumberOtherwise(c, s, 0, false, "", x.at);
  }

  /** After coming up, or failing the way a loading model does, a probed seat is not confirmed, whatever it
      was before. */
  lemma VoidedByLoading(c: Config, eligible: bool, log: seq<Timed>, n: nat)
    requires Possible(c, eligible, log) && n < |log| && eligible
    requires || (log[n].e.Failed? && log[n].e.f.warmingSignal)
             || (log[n].e.Observed? && log[n].e.ok && Known(After(c, eligible, log, n), eligible).pollState != PollAvailable)
    ensures !Earned(c, eligible, log, n + 1)
  {
    ConfirmedExactly(c, eligible, log, n + 1);
    ListedSeatsWarmedUp(c, eligible, log, n);
    hide Earned, Possible, ProbeBackoff;
  }

  lemma WitnessNow(c: Config, eligible: bool, log: seq<Timed>, i: nat, q: nat)
    requires Possible(c, eligible, log) && i < |log|
    requires (log[i].e.Succeeded? && After(c, eligible, log, i).seat.Some?) || (log[i].e.ProbeDone? && log[i].e.good && log[i].e.seqNo == q)
    ensures Witness(c, eligible, log, i, q)
  {
    hide Next;
    if log[i].e.ProbeDone? {
      assert Enabled(After(c, eligible, log, i), log[i]);
      JobsWereLaunched(c, eligible, log, i, q);
    }
  }

  lemma {:induction false} ListedSeatsWarmedUp(c: Config, eligible: bool, log: seq<Timed>, n: nat)
    requires n <= |log|
    ensures var s := Known(After(c, eligible, log, n), eligible);
            s.probe == eligible && (eligible && s.pollState == PollAvailable ==> s.probeSeq >= 1)
    decreases n
  {
    if n > 0 {
      ListedSeatsWarmedUp(c, eligible, log, n - 1);
      StepOf(c, eligible, log, n);
      hide Next;
    }
  }

  /** In every interleaving of polls, outstanding probes, demotions and traffic: a probed seat that is
      reported available from the poll has been through warming, and since it last entered warming
      either served a request or had a probe come back good that was launched in that same warm-up. */
  lemma AvailableFromPollIsEarned(c: Config, eligible: bool, log: seq<Timed>, now: int)
    requires Possible(c, eligible, log) && eligible
    requires var w := After(c, eligible, log, |log|); VerdictOf(c, w.seat, w.polled, now) == Verdict(Available, FromPoll)
    ensures SeqAt(c, eligible, log, |log|) >= 1
    ensures Earned(c, eligible, log, |log|)
  {
    hide Next;
    ListedSeatsWarmedUp(c, eligible, log, |log|);
    ConfirmedIsEarned(c, eligible, log, |log|);
  }

  /** The result of a probe launched before the seat last entered warming changes nothing. */
  lemma SupersededResultIsDropped(c: Config, eligible: bool, log: seq<Timed>, launched: nat, warmed: nat, done: nat)
    requires launched <= warmed < done < |log|
    requires log[launched].e.Launched? && SeqAt(c, eligible, log, warmed + 1) == SeqAt(c, eligible, log, warmed) + 1
    requires log[done].e.ProbeDone? && log[done].e.seqNo == SeqAt(c, eligible, log, launched)
    ensures After(c, eligible, log, done + 1) == After(c, eligible, log, done)
  {
    hide Observe, Fail, Succeed, Query;
    SeqGrows(c, eligible, log, launched, warmed);
    SeqGrows(c, eligible, log, warmed + 1, done);
  }

  /** A seat that is listed and not confirmed is held back from routing unless its breaker is open. */
  lemma UnconfirmedIsNotRoutable(c: Config, w: World, now: int)
    requires w.seat.Some? && w.seat.value.probe && !w.seat.value.confirmed && w.seat.value.pollState == PollAvailable
    ensures var v := VerdictOf(c, w.seat, w.polled, now); Routable(v) ==> v.source == FromPassive
  {
  }

  // ----- poll hysteresis ----------------------------------------------------------------

  /** Consecutive failed observations at the end of the first n events. */
  function FailedTail(log: seq<Timed>, n: nat): nat
    requires n <= |log|
  {
    if n == 0 then 0
    else if log[n - 1].e.Observed? then if log[n - 1].e.ok then 0 else FailedTail(log, n - 1) + 1
    else FailedTail(log, n - 1)
  }

  /** Slow to condemn, quick to forgive: the poll calls a seat unavailable exactly when its last
      observations, as many as the limit or more, all failed. */
  lemma {:induction false} PollHysteresis(c: Config, eligible: bool, log: seq<Timed>, n: nat)
    requires Sane(c) && n <= |log|
    ensures var s := Known(After(c, eligible, log, n), eligible);
            && s.pollFails == FailedTail(log, n)
            && (s.pollState == PollUnavailable <==> FailedTail(log, n) >= c.downAfter)
    decreases n
  {
    if n > 0 {
      PollHysteresis(c, eligible, log, n - 1);
      StepOf(c, eligible, log, n);
      hide Next;
    }
  }

  // ----- probe scheduling ---------------------------------------------------------------

  /** Right after a failed probe of the current warm-up, the listed seat is due again exactly from
      5 s doubled per earlier failure on, capped at 60 s. */
  lemma DueAfterFailedProbe(s: Seat, message: string, at: int, now: int)
    requires s.probe && !s.confirmed && s.pollState == PollAvailable && s.probeFails >= 0
    ensures var t := ApplyProbe(s, s.probeSeq, false, message, at);
            && t.probeFails == s.probeFails + 1
            && (Due(t, now) <==> now - at >= CappedDoubling(s.probeFails + 1))
            && (now - at >= PROBE_BACKOFF_CAP ==> Due(t, now))
  {
    BackoffIsCappedDoubling(s.probeFails + 1);
  }

  /** The event is a failed probe of the warm-up under way, or a loading failure that starts one. */
  predicate FailsProbe(eligible: bool, w: World, x: Timed) {
    var s := Known(w, eligible);
    match x.e
    case ProbeDone(q, good, _) => w.seat.Some? && s.probe && !s.confirmed && q == s.probeSeq && !good
    case Failed(f) => s.probe && f.warmingSignal && (s.confirmed || s.probeErr == "")
    case _ => false
  }

  ghost predicate FailedAt(c: Config, eligible: bool, log: seq<Timed>, i: nat)
    requires i < |log|
  {
    FailsProbe(eligible, After(c, eligible, log, i), log[i])
  }

  /** Failed probes among the first n events since the seat last entered warming. */
  ghost function ProbeFailures(c: Config, eligible: bool, log: seq<Timed>, n: nat): nat
    requires n <= |log|
  {
    if n == 0 then 0
    else
      (if SeqAt(c, eligible, log, n) == SeqAt(c, eligible, log, n - 1) then ProbeFailures(c, eligible, log, n - 1) else 0)
      + if FailedAt(c, eligible, log, n - 1) then 1 else 0
  }

  /** The last failed probe since the seat last entered warming. */
  ghost function LastFailure(c: Config, eligible: bool, log: seq<Timed>, n: nat): (o: Option<nat>)
    requires n <= |log|
    ensures o.Some? ==> o.value < n
  {
    if n == 0 then None
    else if FailedAt(c, eligible, log, n - 1) then Some(n - 1)
    else if SeqAt(c, eligible, log, n) == SeqAt(c, eligible, log, n - 1) then LastFailure(c, eligible, log, n - 1)
    else None
  }

  /** It is what its name says: a failed probe with none later, and no new warm-up after it. */
  lemma {:induction false} LastFailureIs(c: Config, eligible: bool, log: seq<Timed>, n: nat, i: nat)
    requires i < n <= |log|
    ensures LastFailure(c, eligible, log, n) == Some(i) <==>
            && FailedAt(c, eligible, log, i)
            && SeqAt(c, eligible, log, i + 1) == SeqAt(c, eligible, log, n)
            && forall j | i < j < n :: !FailedAt(c, eligible, log, j)
    decreases n
  {
    hide FailedAt, SeqAt;
    if i < n - 1 {
      LastFailureIs(c, eligible, log, n - 1, i);
      SeqGrows(c, eligible, log, i + 1, n - 1);
      SeqGrows(c, eligible, log, n - 1, n);
    }
  }

  /** What one event does to the schedule: only a failed probe sets it, only a new warm-up clears it. */
  ghost predicate ScheduleFacts(s: Seat, t: Seat, at: int, failed: bool) {
    && t.probeFails == (if t.probeSeq == s.probeSeq then s.probeFails else 0) + (if failed then 1 else 0)
    && t.probeNextAt == if failed then Some(at + ProbeBackoff(t.probeFails)) else if t.probeSeq == s.probeSeq then s.probeNextAt else None
  }

  lemma ScheduleOfProbe(s: Seat, q: nat, good: bool, message: string, at: int)
    ensures ScheduleFacts(s, ApplyProbe(s, q, good, message, at), at, s.probe && !s.confirmed && q == s.probeSeq && !good)
  {
    hide ProbeBackoff;
  }

  lemma ScheduleOfFailure(c: Config, s: Seat, f: Failure, at: int)
    ensures ScheduleFacts(s, Fail(c, s, f, at), at, s.probe && f.warmingSignal && (s.confirmed || s.probeErr == ""))
  {
    hide ProbeBackoff;
  }

  lemma ScheduleOfObservation(c: Config, s: Seat, ok: bool, at: int)
    ensures ScheduleFacts(s, Observe(c, s, ok, at), at, false)
  {
    hide ProbeBackoff;
  }

  lemma ScheduleUntouched(s: Seat, t: Seat, at: int)
    requires t.probeFails == s.probeFails && t.probeSeq == s.probeSeq && t.probeNextAt == s.probeNextAt
    ensures ScheduleFacts(s, t, at, false)
  {
    hide ProbeBackoff;
  }

  lemma ScheduleStep(c: Config, eligible: bool, w: World, x: Timed)
    ensures ScheduleFacts(Known(w, eligible), Known(Next(c, eligible, w, x), eligible), x.at, FailsProbe(eligible, w, x))
  {
    hide ScheduleFacts, Observe, ApplyProbe, Fail, Known, Denies;
    var s := Known(w, eligible);
    ScheduleUntouched(s, s, x.at);
    match x.e
    case Observed(ok) => ScheduleOfObservation(c, s, ok, x.at); KnownSeat(w.(seat := Some(Observe(c, s, ok, x.at))), eligible);
    case ProbeDone(q, good, message) =>
      if w.seat.Some? {
        ScheduleOfProbe(s, q, good, message, x.at);
        KnownSeat(w, eligible);
        KnownSeat(w.(seat := Some(ApplyProbe(s, q, good, message, x.at))), eligible);
      }
    case Failed(f) => ScheduleOfFailure(c, s, f, x.at); KnownSeat(w.(seat := Some(Fail(c, s, f, x.at))), eligible);
    case Succeeded =>
      if w.seat.Some? {
        KnownSeat(w, eligible);
        ScheduleUntouched(s, Succeed(s), x.at);
        KnownSeat(w.(seat := Some(Succeed(s))), eligible);
      }
    case Queried =>
      if w.seat.Some? {
        KnownSeat(w, eligible);
        ScheduleUntouched(s, Query(c, s, x.at), x.at);
        KnownSeat(w.(seat := Some(Query(c, s, x.at))), eligible);
      }
    case Listed(a) => ScheduleUntouched(s, s.(absent := a), x.at); KnownSeat(w.(seat := Some(s.(absent := a))), eligible);
    case Launched => SameSeat(w, Next(c, eligible, w, x), eligible);
    case RoundEnded => SameSeat(w, Next(c, eligible, w, x), eligible);
  }

  lemma KnownSeat(w: World, eligible: bool)
    requires w.seat.Some?
    ensures Known(w, eligible) == w.seat.value
  {
  }

  lemma SameSeat(w: World, v: World, eligible: bool)
    requires v.seat == w.seat
    ensures Known(v, eligible) == Known(w, eligible)
  {
  }

  /** The schedule of a seat, read off the number of failed probes and the last of them. */
  ghost predicate Scheduled(s: Seat, log: seq<Timed>, k: nat, o: Option<nat>)
    requires o.Some? ==> o.value < |log|
  {
    && s.probeFails == k && (k > 0 <==> o.Some?)
    && s.probeNextAt == if o.Some? then Some(log[o.value].at + ProbeBackoff(k)) else None
  }

  lemma ScheduleMoves(log: seq<Timed>, n: nat, s: Seat, t: Seat, k: nat, o: Option<nat>, failed: bool)
    requires n < |log| && (o.Some? ==> o.value < n) && Scheduled(s, log, k, o)
    requires ScheduleFacts(s, t, log[n].at, failed)
    ensures var same := t.probeSeq == s.probeSeq;
            Scheduled(t, log, (if same then k else 0) + (if failed then 1 else 0), if failed then Some(n) else if same then o else None)
  {
    hide ProbeBackoff;
  }

  lemma FreshSchedule(c: Config, eligible: bool, log: seq<Timed>)
    ensures Scheduled(Known(After(c, eligible, log, 0), eligible), log, ProbeFailures(c, eligible, log, 0), LastFailure(c, eligible, log, 0))
  {
  }

  /** In every run, the schedule is what the log says: the next probe waits for the last failed probe of
      the current warm-up, as long as the number of failed probes in it asks for, and for nothing else. */
  lemma {:induction false} ScheduleRefinesLog(c: Config, eligible: bool, log: seq<Timed>, n: nat)
    requires n <= |log|
    ensures Scheduled(Known(After(c, eligible, log, n), eligible), log, ProbeFailures(c, eligible, log, n), LastFailure(c, eligible, log, n))
    decreases n
  {
    hide Next, FailsProbe, Known, Scheduled, ScheduleFacts;
    if n == 0 {
      FreshSchedule(c, eligible, log);
    } else {
      ScheduleRefinesLog(c, eligible, log, n - 1);
      ScheduleStep(c, eligible, After(c, eligible, log, n - 1), log[n - 1]);
      ScheduleMoves(log, n - 1, Known(After(c, eligible, log, n - 1), eligible), Known(After(c, eligible, log, n), eligible),
                    ProbeFailures(c, eligible, log, n - 1), LastFailure(c, eligible, log, n - 1), FailedAt(c, eligible, log, n - 1));
    }
  }

  /** In every run, an unconfirmed listed seat is due exactly when no probe failed since it entered
      warming, or once 5 s, doubled per failed probe after the first and capped at 60 s, have passed since
      the last failed probe; whatever else happened since then does not matter. */
  lemma NeverParkedForLong(c: Config, eligible: bool, log: seq<Timed>, n: nat, now: int)
    requires n <= |log|
    requires var s := Known(After(c, eligible, log, n), eligible); s.probe && !s.confirmed && s.pollState == PollAvailable
    ensures var (s, k, o) := (Known(After(c, eligible, log, n), eligible), ProbeFailures(c, eligible, log, n), LastFailure(c, eligible, log, n));
            && (o.None? ==> Due(s, now))
            && (o.Some? ==> k > 0 && (Due(s, now) <==> now - log[o.value].at >= CappedDoubling(k)) && CappedDoubling(k) <= PROBE_BACKOFF_CAP)
  {
    ScheduleRefinesLog(c, eligible, log, n);
    BackoffIsCappedDoubling(ProbeFailures(c, eligible, log, n));
    hide After, Known, ProbeBackoff, ProbeFailures, LastFailure, Pow2;
  }
}
