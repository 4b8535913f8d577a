/** One model's record in the tracker (internal/health/tracker.go, modelState), changed in place; every
    method is proved to do to the record what the machine of Seats does to the seat. */
module ModelStates {
  import opened Seats
  import opened ProbeBackoffs

  class ModelState {
    var pollState: Poll
    var pollFails: int
    var breakerFails: int
    var breakerOpen: bool
    var breakerOpenedAt: int
    var halfOpen: bool
    var breakerCooldown: int
    var probe: bool
    var confirmed: bool
    var probeSeq: nat
    var probeFails: int
    var probeErr: string
    var probeNextAt: Option<int>
    var warmingSince: int
    var absent: bool

    ghost function Abs(): Seat
      reads this
    {
      Seat(pollState, pollFails, breakerFails, breakerOpen, breakerOpenedAt, halfOpen, breakerCooldown,
           probe, confirmed, probeSeq, probeFails, probeErr, probeNextAt, warmingSince, absent)
    }

    constructor (probed: bool)
      ensures Abs() == NewSeat(probed)
    {
      pollState, pollFails, breakerFails, breakerOpen, breakerOpenedAt := PollUnknown, 0, 0, false, 0;
      halfOpen, breakerCooldown, probe, confirmed, probeSeq := false, 0, probed, false, 0;
      probeFails, probeErr, probeNextAt, warmingSince, absent := 0, "", None, 0, false;
    }

    method EnterWarming(why: string, now: int)
      modifies this
      ensures Abs() == Warm(old(Abs()), why, now)
    {
      confirmed := false;
      probeSeq := probeSeq + 1;
      probeFails := 0;
      probeErr := why;
      probeNextAt := None;
      warmingSince := now;
    }

    method ApplyObservation(c: Config, ok: bool, now: int)
      modifies this
      ensures Abs() == Observe(c, old(Abs()), ok, now)
    {
      if ok {
        pollFails := 0;
        if pollState != PollAvailable && probe {
          EnterWarming("", now);
        }
        pollState := PollAvailable;
      } else {
        pollFails := pollFails + 1;
        if pollFails >= c.downAfter && pollState != PollUnavailable {
          pollState := PollUnavailable;
        }
      }
    }

    method FoldProbe(seqNo: nat, good: bool, message: string, now: int)
      modifies this
      ensures Abs() == ApplyProbe(old(Abs()), seqNo, good, message, now)
    {
      if probeSeq != seqNo || !probe || confirmed {
        return;
      }
      if good {
        confirmed := true;
        probeErr := "";
      } else {
        probeFails := probeFails + 1;
        probeErr := message;
        probeNextAt := Some(now + ProbeBackoff(probeFails));
      }
    }

    method FoldFailure(c: Config, f: Failure, now: int)
      modifies this
      ensures Abs() == Fail(c, old(Abs()), f, now)
    {
      hide ProbeBackoff;
      if probe && f.warmingSignal {
        if confirmed || probeErr == "" {
          EnterWarming(f.message, now);
          probeFails := 1;
          probeNextAt := Some(now + ProbeBackoff(1));
        }
        return;
      }
      CountFailure(c, f, now);
    }

    /** The breaker's part of a failure. */
    method CountFailure(c: Config, f: Failure, now: int)
      requires !(probe && f.warmingSignal)
      modifies this
      ensures Abs() == Fail(c, old(Abs()), f, now)
    {
      var trial := breakerOpen && halfOpen;
      halfOpen := false;
      breakerFails := breakerFails + 1;
      var after := RetryAfterOf(c, f);
      if !trial && after == 0 && (breakerOpen || breakerFails < c.breakerTrip) {
        return;
      }
      breakerOpen := true;
      breakerOpenedAt := now;
      breakerCooldown := after;
    }

    method FoldSuccess()
      modifies this
      ensures Abs() == Succeed(old(Abs()))
    {
      breakerFails := 0;
      breakerOpen := false;
      halfOpen := false;
      breakerCooldown := 0;
      if probe && !confirmed {
        confirmed := true;
        probeErr := "";
      }
    }

    method SetAbsent(value: bool)
      modifies this
      ensures Abs() == old(Abs()).(absent := value)
    {
      absent := value;
    }

    method IsDue(now: int) returns (due: bool)
      ensures due == Due(Abs(), now)
    {
      if !probe || confirmed || pollState != PollAvailable {
        return false;
      }
      return probeNextAt.None? || now >= probeNextAt.value;
    }

    method Answer(c: Config, polled: bool, now: int) returns (v: Verdict)
      modifies this
      ensures v == VerdictOf(c, Some(old(Abs())), polled, now)
      ensures Abs() == Query(c, old(Abs()), now)
    {
      if breakerOpen {
        var cooldown := if breakerCooldown > 0 then breakerCooldown else c.breakerCooldown;
        if now - breakerOpenedAt < cooldown {
          return Verdict(Unavailable, FromPassive);
        }
        halfOpen := true;
        return Verdict(Available, FromPassive);
      }
      if pollState == PollUnavailable {
        return Verdict(Unavailable, FromPoll);
      }
      if absent {
        return Verdict(Absent, FromInventory);
      }
      if pollState == PollAvailable {
        if probe && !confirmed {
          return Verdict(Warming, FromProbe);
        }
        return Verdict(Available, FromPoll);
      }
      return if !polled then Verdict(Unknown, FromAssumed) else Verdict(Available, FromAssumed);
    }
  }
}
