/** The verdict on a seat, read off its event log alone, and the proof that the tracker's answer is that one
    (internal/health/tracker.go, stateLocked). */
module Verdicts {
  import opened Seats
  import opened Breakers

  // ----- what the log says of poll and listing ------------------------------------------

  /** Some poll found the seat up. */
  predicate SeenUp(log: seq<Timed>, n: nat)
    requires n <= |log|
  {
    n > 0 && ((log[n - 1].e.Observed? && log[n - 1].e.ok) || SeenUp(log, n - 1))
  }

  /** The last listing verdict was that the seat is absent. */
  predicate SaidAbsent(log: seq<Timed>, n: nat)
    requires n <= |log|
  {
    n > 0 && if log[n - 1].e.Listed? then log[n - 1].e.absent else SaidAbsent(log, n - 1)
  }

  /** A poll round is over. */
  predicate RoundOver(log: seq<Timed>, n: nat)
    requires n <= |log|
  {
    n > 0 && (log[n - 1].e.RoundEnded? || RoundOver(log, n - 1))
  }

  /** The breaker has the first word, then a poll that condemns, then the listing, then a poll that found the
      seat up: a probed seat has to have earned it since it entered warming. Nobody knows before the first
      round is over, and afterwards what was never polled is taken to be up. */
  ghost function LogVerdict(c: Config, eligible: bool, log: seq<Timed>, n: nat, now: int): Verdict
    requires n <= |log|
  {
    if OpenedBy(c, eligible, log, n).Some? then
      if DeniedAt(c, eligible, log, n, now) then Verdict(Unavailable, FromPassive) else Verdict(Available, FromPassive)
    else if FailedTail(log, n) >= c.downAfter then Verdict(Unavailable, FromPoll)
    else if SaidAbsent(log, n) then Verdict(Absent, FromInventory)
    else if SeenUp(log, n) then
      if eligible && !Earned(c, eligible, log, n) then Verdict(Warming, FromProbe) else Verdict(Available, FromPoll)
    else if RoundOver(log, n) then Verdict(Available, FromAssumed)
    else Verdict(Unknown, FromAssumed)
  }

  // ----- the record says the same -------------------------------------------------------

  lemma AbsentStep(c: Config, eligible: bool, w: World, x: Timed)
    ensures Known(Next(c, eligible, w, x), eligible).absent == if x.e.Listed? then x.e.absent else Known(w, eligible).absent
  {
    KnownNext(c, eligible, w, x);
    FoldedAbsent(c, Known(w, eligible), x);
    hide Next, Known, Fold;
  }

  lemma FoldedAbsent(c: Config, s: Seat, x: Timed)
    ensures Fold(c, s, x).absent == if x.e.Listed? then x.e.absent else s.absent
  {
    hide RetryAfterOf;
  }

  lemma {:induction false} AbsentIsSaid(c: Config, eligible: bool, log: seq<Timed>, n: nat)
    requires n <= |log|
    ensures Known(After(c, eligible, log, n), eligible).absent == SaidAbsent(log, n)
    decreases n
  {
    hide Next;
    if n > 0 {
      AbsentIsSaid(c, eligible, log, n - 1);
      AbsentStep(c, eligible, After(c, eligible, log, n - 1), log[n - 1]);
    }
  }

  lemma {:induction false} RoundsAreOver(c: Config, eligible: bool, log: seq<Timed>, n: nat)
    requires n <= |log|
    ensures After(c, eligible, log, n).polled == RoundOver(log, n)
    decreases n
  {
    hide Observe, ApplyProbe, Fail, Succeed, Query;
    if n > 0 {
      RoundsAreOver(c, eligible, log, n - 1);
    }
  }

  /** The poll's state, too, is what the log says. */
  lemma {:induction false} PollIsSeen(c: Config, eligible: bool, log: seq<Timed>, n: nat)
    requires Sane(c) && n <= |log|
    ensures Known(After(c, eligible, log, n), eligible).pollState ==
            if FailedTail(log, n) >= c.downAfter then PollUnavailable else if SeenUp(log, n) then PollAvailable else PollUnknown
    decreases n
  {
    hide Next;
    if n > 0 {
      PollIsSeen(c, eligible, log, n - 1);
      PollHysteresis(c, eligible, log, n - 1);
      StepOf(c, eligible, log, n);
    }
  }

  /** A seat without a record is judged like one with a fresh record. */
  lemma UnknownIsFresh(c: Config, eligible: bool, w: World, now: int)
    ensures VerdictOf(c, w.seat, w.polled, now) == VerdictOf(c, Some(Known(w, eligible)), w.polled, now)
  {
  }

  /** In every run the answer is the log's: for every order of polls, probes, demotions, listings and traffic. */
  lemma VerdictIsTheLogs(c: Config, eligible: bool, log: seq<Timed>, n: nat, now: int)
    requires Possible(c, eligible, log) && n <= |log|
    ensures var w := After(c, eligible, log, n); VerdictOf(c, w.seat, w.polled, now) == LogVerdict(c, eligible, log, n, now)
  {
    var w := After(c, eligible, log, n);
    BreakerRefinesLog(c, eligible, log, n);
    PollIsSeen(c, eligible, log, n);
    AbsentIsSaid(c, eligible, log, n);
    RoundsAreOver(c, eligible, log, n);
    ListedSeatsWarmedUp(c, eligible, log, n);
    if eligible {
      ConfirmedExactly(c, eligible, log, n);
    }
    UnknownIsFresh(c, eligible, w, now);
    hide After, OpenedBy, Earned, FailedTail, TrialOut, FailuresSinceSuccess;
  }

  /** So a probed seat is reported available from the poll exactly if its breaker is closed, its last polls do
      not condemn it, some poll found it up, its listing does not deny it, and it has earned it since it last
      entered warming. */
  lemma AvailableFromPollExactly(c: Config, eligible: bool, log: seq<Timed>, n: nat, now: int)
    requires Possible(c, eligible, log) && eligible && n <= |log|
    ensures var w := After(c, eligible, log, n);
            VerdictOf(c, w.seat, w.polled, now) == Verdict(Available, FromPoll) <==>
            && OpenedBy(c, eligible, log, n).None? && FailedTail(log, n) < c.downAfter
            && SeenUp(log, n) && !SaidAbsent(log, n) && Earned(c, eligible, log, n)
  {
    VerdictIsTheLogs(c, eligible, log, n, now);
    hide After, OpenedBy, Earned, FailedTail;
  }

  /** Right after failing the way a loading model does, no probed seat is available on the poll's word. */
  lemma LoadingSeatIsHeldBack(c: Config, eligible: bool, log: seq<Timed>, n: nat, now: int)
    requires Possible(c, eligible, log) && eligible && n < |log| && log[n].e.Failed? && log[n].e.f.warmingSignal
    ensures LogVerdict(c, eligible, log, n + 1, now) != Verdict(Available, FromPoll)
  {
    VoidedByLoading(c, eligible, log, n);
    hide After, OpenedBy, Earned, FailedTail, Possible;
  }

  /** Probes go only to probed seats that the poll found up and that have not earned their keep, once their
      backoff is over. */
  lemma OnlyUnearnedAreProbed(c: Config, eligible: bool, log: seq<Timed>, n: nat)
    requires Possible(c, eligible, log) && n < |log| && log[n].e.Launched?
    ensures eligible && SeenUp(log, n) && FailedTail(log, n) < c.downAfter && !Earned(c, eligible, log, n)
  {
    assert Enabled(After(c, eligible, log, n), log[n]);
    PollIsSeen(c, eligible, log, n);
    ListedSeatsWarmedUp(c, eligible, log, n);
    hide Earned, Next;
    if eligible {
      ConfirmedExactly(c, eligible, log, n);
    }
  }

  /** A counted failure whose upstream asked to be left alone opens the breaker at once, for as long as it
      asked, up to the limit. */
  lemma RetryAfterIsKept(c: Config, eligible: bool, log: seq<Timed>, n: nat, now: int)
    requires Sane(c) && n < |log| && Counted(eligible, log[n].e) && log[n].e.f.retryAfter > 0
    ensures OpenedBy(c, eligible, log, n + 1) == Some(n)
    ensures DeniedAt(c, eligible, log, n + 1, now) <==>
            now - log[n].at < (if log[n].e.f.retryAfter < c.maxRetryAfter then log[n].e.f.retryAfter else c.maxRetryAfter)
  {
  }
}
