/** Rolling windows kept in rings of stamped cells, and the proof that they count what a full log would
    (internal/router/upstreamstats.go, upstreamTracker; internal/router/dashboard.go, reqRateWindow). */
module Windows {
  datatype Option<+T> = None | Some(value: T)

  /** One attempt: the slot of time it fell in, and its error class, "" for a success. */
  datatype Attempt = Attempt(at: nat, errorClass: string)

  predicate IsPolicyRefusal(errorClass: string) {
    errorClass == "privacy_refused" || errorClass == "scope_refused"
  }

  predicate IsFailure(errorClass: string) {
    errorClass != "" && errorClass != "client_error" && !IsPolicyRefusal(errorClass)
  }

  /** What is counted: every attempt, or only the failed ones. */
  predicate Counts(failedOnly: bool, a: Attempt) {
    failedOnly ==> IsFailure(a.errorClass)
  }

  // ----- counting over the log ----------------------------------------------------------

  /** Attempts of the window from lo to hi. */
  function InWindow(log: seq<Attempt>, lo: int, hi: int, failedOnly: bool): nat {
    if log == [] then 0
    else
      var a := log[|log| - 1];
      InWindow(log[..|log| - 1], lo, hi, failedOnly) + if lo <= a.at <= hi && Counts(failedOnly, a) then 1 else 0
  }

  /** Attempts of the window that share cell i of a ring of n. */
  function InCell(log: seq<Attempt>, n: nat, i: nat, lo: int, hi: int, failedOnly: bool): nat
    requires n > 0
  {
    if log == [] then 0
    else
      var a := log[|log| - 1];
      InCell(log[..|log| - 1], n, i, lo, hi, failedOnly) + if a.at % n == i && lo <= a.at <= hi && Counts(failedOnly, a) then 1 else 0
  }

  function SumCells(log: seq<Attempt>, n: nat, m: nat, lo: int, hi: int, failedOnly: bool): nat
    requires n > 0
  {
    if m == 0 then 0 else SumCells(log, n, m - 1, lo, hi, failedOnly) + InCell(log, n, m - 1, lo, hi, failedOnly)
  }

  lemma {:induction false} SumCellsGrows(log: seq<Attempt>, n: nat, m: nat, lo: int, hi: int, failedOnly: bool)
    requires n > 0 && log != [] && m <= n
    ensures var a := log[|log| - 1];
            SumCells(log, n, m, lo, hi, failedOnly) ==
            SumCells(log[..|log| - 1], n, m, lo, hi, failedOnly) + if a.at % n < m && lo <= a.at <= hi && Counts(failedOnly, a) then 1 else 0
  {
    if m > 0 {
      SumCellsGrows(log, n, m - 1, lo, hi, failedOnly);
    }
  }

  /** Every attempt falls into exactly one cell. */
  lemma {:induction false} CellsPartition(log: seq<Attempt>, n: nat, lo: int, hi: int, failedOnly: bool)
    requires n > 0
    ensures SumCells(log, n, n, lo, hi, failedOnly) == InWindow(log, lo, hi, failedOnly)
  {
    if log == [] {
      NothingInCells(n, n, lo, hi, failedOnly);
    } else {
      CellsPartition(log[..|log| - 1], n, lo, hi, failedOnly);
      SumCellsGrows(log, n, n, lo, hi, failedOnly);
    }
  }

  lemma {:induction false} NothingInCells(n: nat, m: nat, lo: int, hi: int, failedOnly: bool)
    requires n > 0
    ensures SumCells([], n, m, lo, hi, failedOnly) == 0
  {
    if m > 0 {
      NothingInCells(n, m - 1, lo, hi, failedOnly);
    }
  }

  // ----- what one cell knows ------------------------------------------------------------

  /** When cell i was last written, None if never. */
  function LastWrite(log: seq<Attempt>, n: nat, i: nat): Option<nat>
    requires n > 0
  {
    if log == [] then None
    else if log[|log| - 1].at % n == i then Some(log[|log| - 1].at)
    else LastWrite(log[..|log| - 1], n, i)
  }

  /** Attempts may arrive out of order, but not by a whole turn of the ring. */
  predicate Skewed(log: seq<Attempt>, n: nat) {
    forall i, j | 0 <= i < j < |log| :: log[i].at < log[j].at + n
  }

  predicate Until(log: seq<Attempt>, now: int) {
    forall i | 0 <= i < |log| :: log[i].at <= now
  }

  /** Two moments in the same cell, less than a turn apart, are one. */
  lemma SameCell(a: nat, b: nat, n: nat)
    requires n > 0 && a % n == b % n && a < b + n && b < a + n
    ensures a == b
  {
    var d := a / n - b / n;
    Quotients(a, b, n);
    Negated(d, n);
    if d >= 1 {
      AtLeastOne(d, n);
    } else if d <= -1 {
      AtLeastOne(-d, n);
    }
  }

  lemma Quotients(a: nat, b: nat, n: nat)
    requires n > 0 && a % n == b % n
    ensures a - b == (a / n - b / n) * n
  {
    assert a == (a / n) * n + a % n;
    assert b == (b / n) * n + b % n;
  }

  lemma Negated(d: int, n: nat)
    ensures -d * n == -(d * n)
  {
  }

  lemma AtLeastOne(d: int, n: nat)
    requires d >= 1
    ensures d * n >= n
  {
  }

  /** Nothing in a cell is newer than its last write. */
  lemma {:induction false} LastWriteIsNewest(log: seq<Attempt>, n: nat, i: nat)
    requires n > 0 && Skewed(log, n)
    ensures LastWrite(log, n, i).None? ==> forall k | 0 <= k < |log| :: log[k].at % n != i
    ensures LastWrite(log, n, i).Some? ==>
              LastWrite(log, n, i).value % n == i && forall k | 0 <= k < |log| && log[k].at % n == i :: log[k].at <= LastWrite(log, n, i).value
  {
    if log != [] {
      var last := log[|log| - 1];
      LastWriteIsNewest(log[..|log| - 1], n, i);
      if last.at % n == i {
        forall k | 0 <= k < |log| && log[k].at % n == i
          ensures log[k].at <= last.at
        {
          if log[k].at > last.at {
            SameCell(log[k].at, last.at, n);
          }
        }
      }
    }
  }

  /** Attempts at exactly this time. */
  function AtExactly(log: seq<Attempt>, at: nat, failedOnly: bool): nat {
    InWindow(log, at, at, failedOnly)
  }

  /** The part of a window of at most one turn that falls into a cell is what the cell counted under its
      last stamp, if that stamp is in the window. */
  lemma CellCounts(log: seq<Attempt>, n: nat, i: nat, lo: int, hi: int, failedOnly: bool)
    requires n > 0 && i < n && Skewed(log, n) && Until(log, hi) && hi - lo < n
    ensures var last := LastWrite(log, n, i);
            InCell(log, n, i, lo, hi, failedOnly) ==
            if last.Some? && lo <= last.value then AtExactly(log, last.value, failedOnly) else 0
  {
    LastWriteIsNewest(log, n, i);
    var last := LastWrite(log, n, i);
    if last.Some? {
      LastWriteHappened(log, n, i);
    }
    if last.Some? && lo <= last.value {
      forall k | 0 <= k < |log|
        ensures log[k].at % n == i && lo <= log[k].at <= hi <==> log[k].at == last.value
      {
        if log[k].at % n == i && lo <= log[k].at {
          SameCell(log[k].at, last.value, n);
        }
      }
      OneStamp(log, n, i, lo, hi, last.value, failedOnly);
    } else {
      NoneInCell(log, n, i, lo, hi, failedOnly);
    }
  }

  lemma {:induction false} LastWriteHappened(log: seq<Attempt>, n: nat, i: nat)
    requires n > 0 && LastWrite(log, n, i).Some?
    ensures exists k :: 0 <= k < |log| && log[k].at == LastWrite(log, n, i).value
  {
    if log[|log| - 1].at % n != i {
      LastWriteHappened(log[..|log| - 1], n, i);
      var k :| 0 <= k < |log| - 1 && log[..|log| - 1][k].at == LastWrite(log, n, i).value;
      assert log[k].at == LastWrite(log, n, i).value;
    }
  }

  lemma {:induction false} OneStamp(log: seq<Attempt>, n: nat, i: nat, lo: int, hi: int, stamp: nat, failedOnly: bool)
    requires n > 0
    requires forall k | 0 <= k < |log| :: log[k].at % n == i && lo <= log[k].at <= hi <==> log[k].at == stamp
    ensures InCell(log, n, i, lo, hi, failedOnly) == AtExactly(log, stamp, failedOnly)
  {
    if log != [] {
      OneStamp(log[..|log| - 1], n, i, lo, hi, stamp, failedOnly);
      assert log[|log| - 1].at % n == i && lo <= log[|log| - 1].at <= hi <==> log[|log| - 1].at == stamp;
    }
  }

  lemma {:induction false} NoneInCell(log: seq<Attempt>, n: nat, i: nat, lo: int, hi: int, failedOnly: bool)
    requires n > 0 && forall k | 0 <= k < |log| :: !(log[k].at % n == i && lo <= log[k].at <= hi)
    ensures InCell(log, n, i, lo, hi, failedOnly) == 0
  {
    if log != [] {
      NoneInCell(log[..|log| - 1], n, i, lo, hi, failedOnly);
      assert !(log[|log| - 1].at % n == i && lo <= log[|log| - 1].at <= hi);
    }
  }

  // ----- a cell against the log ---------------------------------------------------------

  /** A cell holds the stamp of its last write and what was counted under it; an unwritten one is zero. */
  ghost predicate CellIs(log: seq<Attempt>, n: nat, i: nat, stamp: int, count: int, failedOnly: bool)
    requires n > 0
  {
    var last := LastWrite(log, n, i);
    if last.Some? then stamp == last.value && count == AtExactly(log, last.value, failedOnly) else stamp == 0 && count == 0
  }

  /** One more attempt: its own cell starts over when the stamp is another one, and counts it. */
  lemma CellAfter(log: seq<Attempt>, n: nat, i: nat, stamp: int, count: int, failedOnly: bool, a: Attempt)
    requires n > 0 && i < n && Skewed(log + [a], n) && CellIs(log, n, i, stamp, count, failedOnly)
    ensures a.at % n != i ==> CellIs(log + [a], n, i, stamp, count, failedOnly)
    ensures a.at % n == i ==>
              CellIs(log + [a], n, i, a.at, (if stamp == a.at then count else 0) + if Counts(failedOnly, a) then 1 else 0, failedOnly)
  {
    var more := log + [a];
    assert more[..|log|] == log;
    SkewedPrefix(log, a, n);
    LastWriteIsNewest(log, n, i);
    if a.at % n == i {
      if LastWrite(log, n, i) != Some(a.at) {
        StampIsNew(log, n, i, a, failedOnly);
      }
    } else if LastWrite(log, n, i).Some? {
      assert LastWrite(log, n, i).value != a.at;
    }
  }

  lemma SkewedPrefix(log: seq<Attempt>, a: Attempt, n: nat)
    requires Skewed(log + [a], n)
    ensures Skewed(log, n) && forall k | 0 <= k < |log| :: log[k].at < a.at + n
  {
    assert forall k | 0 <= k < |log| :: (log + [a])[k] == log[k];
    assert (log + [a])[|log|] == a;
  }

  /** A stamp the cell does not hold has no attempts in the log yet. */
  lemma StampIsNew(log: seq<Attempt>, n: nat, i: nat, a: Attempt, failedOnly: bool)
    requires n > 0 && i < n && Skewed(log + [a], n) && a.at % n == i && LastWrite(log, n, i) != Some(a.at)
    ensures AtExactly(log, a.at, failedOnly) == 0
  {
    SkewedPrefix(log, a, n);
    LastWriteIsNewest(log, n, i);
    var last := LastWrite(log, n, i);
    if last.Some? {
      LastWriteHappened(log, n, i);
      if last.value > a.at {
        SameCell(last.value, a.at, n);
      }
    }
    NotInWindow(log, a.at, failedOnly);
  }

  lemma {:induction false} NotInWindow(log: seq<Attempt>, at: nat, failedOnly: bool)
    requires forall k | 0 <= k < |log| :: log[k].at != at
    ensures AtExactly(log, at, failedOnly) == 0
  {
    if log != [] {
      NotInWindow(log[..|log| - 1], at, failedOnly);
    }
  }

  /** What a scan over the first m cells of a ring adds up to. */
  function SumOf(stamps: seq<int>, counts: seq<int>, m: nat, lo: int, hi: int): int
    requires m <= |stamps| && |stamps| == |counts|
  {
    if m == 0 then 0 else SumOf(stamps, counts, m - 1, lo, hi) + if lo <= stamps[m - 1] <= hi then counts[m - 1] else 0
  }

  ghost predicate RingIs(log: seq<Attempt>, stamps: seq<int>, counts: seq<int>, failedOnly: bool) {
    |stamps| == |counts| > 0 && forall i | 0 <= i < |stamps| :: CellIs(log, |stamps|, i, stamps[i], counts[i], failedOnly)
  }

  /** The scan is the count over the full log, for every window of at most one turn that reaches up to the
      present. */
  lemma {:induction false} ScanIsCount(log: seq<Attempt>, stamps: seq<int>, counts: seq<int>, m: nat, lo: int, hi: int, failedOnly: bool)
    requires RingIs(log, stamps, counts, failedOnly) && m <= |stamps|
    requires Skewed(log, |stamps|) && Until(log, hi) && hi - lo < |stamps|
    ensures SumOf(stamps, counts, m, lo, hi) == SumCells(log, |stamps|, m, lo, hi, failedOnly)
  {
    if m > 0 {
      ScanIsCount(log, stamps, counts, m - 1, lo, hi, failedOnly);
      CellCounts(log, |stamps|, m - 1, lo, hi, failedOnly);
      if LastWrite(log, |stamps|, m - 1).Some? {
        LastWriteHappened(log, |stamps|, m - 1);
      }
      assert CellIs(log, |stamps|, m - 1, stamps[m - 1], counts[m - 1], failedOnly);
    }
  }

  // ----- requests per minute ------------------------------------------------------------

  const SECONDS := 60

  /** Sixty cells of one second. */
  class ReqRateWindow {
    const slots: array<int>
    const stamp: array<int>
    ghost var log: seq<Attempt>

    /** In step with the log for as long as no attempt comes a whole turn late. */
    ghost predicate Valid()
      reads this, slots, stamp
    {
      slots != stamp && slots.Length == SECONDS && stamp.Length == SECONDS &&
      (Skewed(log, SECONDS) ==> RingIs(log, stamp[..], slots[..], false))
    }

    constructor ()
      ensures Valid() && log == [] && fresh(slots) && fresh(stamp)
    {
      slots := new int[SECONDS](_ => 0);
      stamp := new int[SECONDS](_ => 0);
      log := [];
    }

    method Hit(second: nat)
      requires Valid()
      modifies slots, stamp, this`log
      ensures Valid() && log == old(log) + [Attempt(second, "")]
    {
      var i := second % SECONDS;
      ghost var (s, c) := (stamp[..], slots[..]);
      if Skewed(log + [Attempt(second, "")], SECONDS) {
        SkewedPrefix(log, Attempt(second, ""), SECONDS);
        RingAfter(log, s, c, false, Attempt(second, ""));
      }
      if stamp[i] != second {
        stamp[i] := second;
        slots[i] := 0;
      }
      slots[i] := slots[i] + 1;
      log := log + [Attempt(second, "")];
      assert stamp[..] == s[i := second] && slots[..] == c[i := (if s[i] == second then c[i] else 0) + 1];
    }

    /** The requests of the last sixty seconds, as the full log counts them. */
    method PerMinute(second: nat) returns (n: int)
      requires Valid()
      ensures Skewed(log, SECONDS) && Until(log, second) ==> n == InWindow(log, second - 59, second, false)
    {
      n := 0;
      ghost var (s, c) := (stamp[..], slots[..]);
      ghost var orderly := Skewed(log, SECONDS) && Until(log, second);
      for i := 0 to SECONDS
        invariant orderly ==> n == SumOf(s, c, i, second - 59, second)
      {
        if orderly {
          StampIsPast(log, s, c, false, i, second);
        }
        if second - stamp[i] < 60 {
          n := n + slots[i];
        }
      }
      if orderly {
        ScanIsCount(log, s, c, SECONDS, second - 59, second, false);
        CellsPartition(log, SECONDS, second - 59, second, false);
      }
    }
  }

  lemma StampIsPast(log: seq<Attempt>, stamps: seq<int>, counts: seq<int>, failedOnly: bool, i: nat, now: nat)
    requires RingIs(log, stamps, counts, failedOnly) && i < |stamps| && Until(log, now)
    ensures stamps[i] <= now
  {
    assert CellIs(log, |stamps|, i, stamps[i], counts[i], failedOnly);
    if LastWrite(log, |stamps|, i).Some? {
      LastWriteHappened(log, |stamps|, i);
    }
  }

  /** Writing one cell keeps the whole ring in step with the log. */
  lemma RingAfter(log: seq<Attempt>, stamps: seq<int>, counts: seq<int>, failedOnly: bool, a: Attempt)
    requires RingIs(log, stamps, counts, failedOnly) && Skewed(log + [a], |stamps|)
    ensures var i := a.at % |stamps|;
            RingIs(log + [a], stamps[i := a.at],
                   counts[i := (if stamps[i] == a.at then counts[i] else 0) + if Counts(failedOnly, a) then 1 else 0], failedOnly)
  {
    var n := |stamps|;
    var at := a.at % n;
    var (s, c) := (stamps[at := a.at], counts[at := (if stamps[at] == a.at then counts[at] else 0) + if Counts(failedOnly, a) then 1 else 0]);
    forall i | 0 <= i < n
      ensures CellIs(log + [a], n, i, s[i], c[i], failedOnly)
    {
      CellAfter(log, n, i, stamps[i], counts[i], failedOnly, a);
    }
  }

  // ----- upstream failures --------------------------------------------------------------

  const MINUTES := 1440

  /** One minute of one seat. */
  datatype Bucket = Bucket(minute: int, total: int, failed: int)

  function Minutes(bs: seq<Bucket>): seq<int> {
    seq(|bs|, i requires 0 <= i < |bs| => bs[i].minute)
  }

  function Totals(bs: seq<Bucket>): seq<int> {
    seq(|bs|, i requires 0 <= i < |bs| => bs[i].total)
  }

  function Faileds(bs: seq<Bucket>): seq<int> {
    seq(|bs|, i requires 0 <= i < |bs| => bs[i].failed)
  }

  /** One call of record: the second it came at, and the class. */
  datatype Record = Record(time: nat, errorClass: string)

  function ByMinute(log: seq<Record>): seq<Attempt> {
    seq(|log|, i requires 0 <= i < |log| => Attempt(log[i].time / 60, log[i].errorClass))
  }

  /** Since when the seat has been failing, as the fields keep it: the attempts that say nothing about the
      upstream neither start nor end a streak. */
  function FailingSince(log: seq<Record>): Option<nat> {
    if log == [] then None
    else
      var (before, r) := (FailingSince(log[..|log| - 1]), log[|log| - 1]);
      if IsFailure(r.errorClass) then if before.None? then Some(r.time) else before
      else if r.errorClass == "" then None
      else before
  }

  /** What one more attempt changes: it is traffic in its minute in any case; what the client or a policy got wrong
      is no failure and neither starts nor ends a streak; a success ends one; any other error class is a failure. */
  lemma OneMoreCounts(log: seq<Record>, r: Record, lo: int, hi: int)
    ensures var (was, now, one) := (ByMinute(log), ByMinute(log + [r]), if lo <= r.time / 60 <= hi then 1 else 0);
            && InWindow(now, lo, hi, false) == InWindow(was, lo, hi, false) + one
            && (r.errorClass in {"", "client_error", "privacy_refused", "scope_refused"} ==>
                  InWindow(now, lo, hi, true) == InWindow(was, lo, hi, true))
            && (r.errorClass !in {"", "client_error", "privacy_refused", "scope_refused"} ==>
                  InWindow(now, lo, hi, true) == InWindow(was, lo, hi, true) + one)
    ensures var (was, now) := (FailingSince(log), FailingSince(log + [r]));
            && (r.errorClass in {"client_error", "privacy_refused", "scope_refused"} ==> now == was)
            && (r.errorClass == "" ==> now.None?)
            && (r.errorClass !in {"", "client_error", "privacy_refused", "scope_refused"} ==>
                  now == if was.Some? then was else Some(r.time))
  {
    var a := Attempt(r.time / 60, r.errorClass);
    assert (log + [r])[..|log|] == log;
    assert ByMinute(log + [r]) == ByMinute(log) + [a];
    assert (ByMinute(log) + [a])[..|log|] == ByMinute(log);
  }

  /** A success came after attempt j and before attempt k. */
  ghost predicate SucceededBetween(log: seq<Record>, j: int, k: int) {
    exists s :: 0 <= s < |log| && j < s < k && log[s].errorClass == ""
  }

  /** Attempt k is the first failure after the last success. */
  ghost predicate StartsStreak(log: seq<Record>, k: nat) {
    && k < |log| && IsFailure(log[k].errorClass)
    && !SucceededBetween(log, k, |log|)
    && forall j | 0 <= j < k && IsFailure(log[j].errorClass) :: SucceededBetween(log, j, k)
  }

  /** Every failure of the log was followed by a success. */
  ghost predicate AllMended(log: seq<Record>) {
    forall j | 0 <= j < |log| && IsFailure(log[j].errorClass) :: SucceededBetween(log, j, |log|)
  }

  /** The reported start of a failure streak is the first failure after the last success, and there is
      none exactly if every failure was followed by a success. */
  lemma {:induction false} FailingSinceIsStreakStart(log: seq<Record>)
    ensures FailingSince(log).Some? ==> exists k: nat :: StartsStreak(log, k) && log[k].time == FailingSince(log).value
    ensures FailingSince(log).None? <==> AllMended(log)
  {
    if log != [] {
      var (front, r) := (log[..|log| - 1], log[|log| - 1]);
      FailingSinceIsStreakStart(front);
      if FailingSince(front).Some? && r.errorClass != "" {
        var k: nat :| StartsStreak(front, k) && front[k].time == FailingSince(front).value;
        StreakGoesOn(log, k);
      } else if r.errorClass == "" {
        Mended(log);
      } else {
        StreakBegins(log);
      }
    }
  }

  lemma SucceededLater(log: seq<Record>, j: int, k: int)
    requires log != [] && k < |log|
    ensures SucceededBetween(log[..|log| - 1], j, k) ==> SucceededBetween(log, j, k)
    ensures log[|log| - 1].errorClass != "" ==> (SucceededBetween(log, j, k + 1) <==> SucceededBetween(log[..|log| - 1], j, k)) || k < |log| - 1
  {
    var front := log[..|log| - 1];
    if SucceededBetween(front, j, k) {
      var s :| 0 <= s < |front| && j < s < k && front[s].errorClass == "";
      assert log[s].errorClass == "";
    }
    if k == |log| - 1 && log[k].errorClass != "" && SucceededBetween(log, j, k + 1) {
      var s :| 0 <= s < |log| && j < s < k + 1 && log[s].errorClass == "";
      assert front[s].errorClass == "";
    }
  }

  lemma Mended(log: seq<Record>)
    requires log != [] && log[|log| - 1].errorClass == ""
    ensures AllMended(log)
  {
    forall j | 0 <= j < |log| && IsFailure(log[j].errorClass)
      ensures SucceededBetween(log, j, |log|)
    {
      assert log[|log| - 1].errorClass == "";
    }
  }

  lemma StreakGoesOn(log: seq<Record>, k: nat)
    requires log != [] && log[|log| - 1].errorClass != "" && StartsStreak(log[..|log| - 1], k)
    ensures StartsStreak(log, k) && log[k] == log[..|log| - 1][k] && !AllMended(log)
  {
    var front := log[..|log| - 1];
    SucceededLater(log, k, |front|);
    forall j | 0 <= j < k && IsFailure(log[j].errorClass)
      ensures SucceededBetween(log, j, k)
    {
      assert IsFailure(front[j].errorClass);
      SucceededLater(log, j, k);
    }
    hide SucceededBetween;
  }

  lemma StreakBegins(log: seq<Record>)
    requires log != [] && log[|log| - 1].errorClass != "" && AllMended(log[..|log| - 1])
    ensures IsFailure(log[|log| - 1].errorClass) ==> StartsStreak(log, |log| - 1) && !AllMended(log)
    ensures !IsFailure(log[|log| - 1].errorClass) ==> AllMended(log)
  {
    var front := log[..|log| - 1];
    forall j | 0 <= j < |front| && IsFailure(log[j].errorClass)
      ensures SucceededBetween(log, j, |front|) && SucceededBetween(log, j, |log|)
    {
      assert IsFailure(front[j].errorClass);
      SucceededLater(log, j, |front|);
    }
    assert !SucceededBetween(log, |front|, |log|);
  }

  predicate Tidy(bs: seq<Bucket>) {
    forall i | 0 <= i < |bs| :: 0 <= bs[i].failed <= bs[i].total
  }

  ghost predicate BucketsAre(log: seq<Attempt>, bs: seq<Bucket>) {
    RingIs(log, Minutes(bs), Totals(bs), false) && RingIs(log, Minutes(bs), Faileds(bs), true)
  }

  /** A bucket after one more attempt: another minute's starts over. */
  function Bumped(b: Bucket, a: Attempt): Bucket {
    var base := if b.minute == a.at then b else Bucket(a.at, 0, 0);
    base.(total := base.total + 1, failed := base.failed + if IsFailure(a.errorClass) then 1 else 0)
  }

  lemma BucketsAfter(log: seq<Attempt>, bs: seq<Bucket>, a: Attempt)
    requires BucketsAre(log, bs) && Skewed(log + [a], |bs|)
    ensures var i := a.at % |bs|; BucketsAre(log + [a], bs[i := Bumped(bs[i], a)])
  {
    var i := a.at % |bs|;
    var more := bs[i := Bumped(bs[i], a)];
    RingAfter(log, Minutes(bs), Totals(bs), false, a);
    RingAfter(log, Minutes(bs), Faileds(bs), true, a);
    hide RingIs, Skewed;
    assert Minutes(more) == Minutes(bs)[i := a.at];
    assert Totals(more) == Totals(bs)[i := (if bs[i].minute == a.at then bs[i].total else 0) + 1];
    assert Faileds(more) == Faileds(bs)[i := (if bs[i].minute == a.at then bs[i].failed else 0) + if IsFailure(a.errorClass) then 1 else 0];
  }

  /** What one more record does to the streak and to the buckets. */
  lemma OneMoreRecord(log: seq<Record>, r: Record, bs: seq<Bucket>)
    requires |bs| == MINUTES && Tidy(bs) && (Skewed(ByMinute(log), MINUTES) ==> BucketsAre(ByMinute(log), bs))
    ensures var (more, a) := (log + [r], Attempt(r.time / 60, r.errorClass));
            var after := bs[a.at % MINUTES := Bumped(bs[a.at % MINUTES], a)];
            && Tidy(after)
            && (Skewed(ByMinute(more), MINUTES) ==> BucketsAre(ByMinute(more), after))
            && FailingSince(more) == (if IsFailure(r.errorClass) then if FailingSince(log).None? then Some(r.time) else FailingSince(log)
                                      else if r.errorClass == "" then None
                                      else FailingSince(log))
  {
    var a := Attempt(r.time / 60, r.errorClass);
    assert (log + [r])[..|log|] == log;
    assert ByMinute(log + [r]) == ByMinute(log) + [a];
    hide BucketsAre;
    if Skewed(ByMinute(log + [r]), MINUTES) {
      SkewedPrefix(ByMinute(log), a, MINUTES);
      BucketsAfter(ByMinute(log), bs, a);
    }
  }

  /** The sums after a scan over the first m buckets. */
  ghost predicate Scanned(bs: seq<Bucket>, m: nat, minute: int, row: Row)
    requires m <= |bs|
  {
    && row.total24h == SumOf(Minutes(bs), Totals(bs), m, minute - 1439, minute)
    && row.failed24h == SumOf(Minutes(bs), Faileds(bs), m, minute - 1439, minute)
    && row.total1h == SumOf(Minutes(bs), Totals(bs), m, minute - 59, minute)
    && row.failed1h == SumOf(Minutes(bs), Faileds(bs), m, minute - 59, minute)
  }

  lemma ScannedMore(bs: seq<Bucket>, m: nat, minute: int)
    requires m < |bs| && Tidy(bs)
    ensures forall lo: int :: SumOf(Minutes(bs), Totals(bs), m + 1, lo, minute) ==
                              SumOf(Minutes(bs), Totals(bs), m, lo, minute) + if lo <= bs[m].minute <= minute then bs[m].total else 0
    ensures forall lo: int :: SumOf(Minutes(bs), Faileds(bs), m + 1, lo, minute) ==
                              SumOf(Minutes(bs), Faileds(bs), m, lo, minute) + if lo <= bs[m].minute <= minute then bs[m].failed else 0
    ensures bs[m].total == 0 ==> bs[m].failed == 0
  {
  }

  lemma ScannedIsCount(log: seq<Attempt>, bs: seq<Bucket>, minute: int, row: Row)
    requires |bs| == MINUTES && BucketsAre(log, bs) && Skewed(log, MINUTES) && Until(log, minute) && Scanned(bs, MINUTES, minute, row)
    ensures row.total24h == InWindow(log, minute - 1439, minute, false) && row.failed24h == InWindow(log, minute - 1439, minute, true)
    ensures row.total1h == InWindow(log, minute - 59, minute, false) && row.failed1h == InWindow(log, minute - 59, minute, true)
  {
    ScanIsCount(log, Minutes(bs), Totals(bs), MINUTES, minute - 1439, minute, false);
    ScanIsCount(log, Minutes(bs), Faileds(bs), MINUTES, minute - 1439, minute, true);
    ScanIsCount(log, Minutes(bs), Totals(bs), MINUTES, minute - 59, minute, false);
    ScanIsCount(log, Minutes(bs), Faileds(bs), MINUTES, minute - 59, minute, true);
    CellsPartition(log, MINUTES, minute - 1439, minute, false);
    CellsPartition(log, MINUTES, minute - 1439, minute, true);
    CellsPartition(log, MINUTES, minute - 59, minute, false);
    CellsPartition(log, MINUTES, minute - 59, minute, true);
  }

  /** The rows the dashboard shows of one seat. */
  datatype Row = Row(total1h: int, failed1h: int, total24h: int, failed24h: int, failingSince: Option<nat>)

  class UpstreamSeries {
    const buckets: array<Bucket>
    var failingSince: Option<nat>
    ghost var log: seq<Record>

    /** The streak follows the log always; the buckets for as long as no attempt comes a whole day late. */
    ghost predicate Valid()
      reads this, buckets
    {
      && buckets.Length == MINUTES && Tidy(buckets[..]) && failingSince == FailingSince(log)
      && (Skewed(ByMinute(log), MINUTES) ==> BucketsAre(ByMinute(log), buckets[..]))
    }

    constructor ()
      ensures Valid() && log == [] && fresh(buckets)
    {
      buckets := new Bucket[MINUTES](_ => Bucket(0, 0, 0));
      failingSince := None;
      log := [];
    }

    method Note(time: nat, errorClass: string)
      requires Valid()
      modifies this`failingSince, this`log, buckets
      ensures Valid() && log == old(log) + [Record(time, errorClass)]
    {
      hide Tidy, Skewed, BucketsAre, FailingSince, ByMinute, IsFailure;
      ghost var r := Record(time, errorClass);
      ghost var bs := buckets[..];
      OneMoreRecord(log, r, bs);
      var minute := time / 60;
      var i := minute % MINUTES;
      var b := buckets[i];
      if b.minute != minute {
        b := Bucket(minute, 0, 0);
      }
      b := b.(total := b.total + 1);
      if IsFailure(errorClass) {
        b := b.(failed := b.failed + 1);
        if failingSince.None? {
          failingSince := Some(time);
        }
      } else if errorClass == "" {
        failingSince := None;
      }
      assert b == Bumped(bs[i], Attempt(minute, errorClass));
      buckets[i] := b;
      log := log + [r];
      assert buckets[..] == bs[i := b];
    }

    /** Both windows and both counts are what the full log says, once its attempts are in the past. */
    method Stats(time: nat) returns (row: Row)
      requires Valid()
      ensures row.failingSince == FailingSince(log)
      ensures Skewed(ByMinute(log), MINUTES) && Until(ByMinute(log), time / 60) ==>
                && row.total24h == InWindow(ByMinute(log), time / 60 - 1439, time / 60, false)
                && row.failed24h == InWindow(ByMinute(log), time / 60 - 1439, time / 60, true)
                && row.total1h == InWindow(ByMinute(log), time / 60 - 59, time / 60, false)
                && row.failed1h == InWindow(ByMinute(log), time / 60 - 59, time / 60, true)
    {
      var minute := time / 60;
      row := Row(0, 0, 0, 0, failingSince);
      ghost var bs := buckets[..];
      for i := 0 to MINUTES
        invariant row.failingSince == FailingSince(log) && Scanned(bs, i, minute, row)
      {
        var b := buckets[i];
        var age := minute - b.minute;
        if 0 <= age < MINUTES && b.total != 0 {
          row := row.(total24h := row.total24h + b.total, failed24h := row.failed24h + b.failed);
          if age < 60 {
            row := row.(total1h := row.total1h + b.total, failed1h := row.failed1h + b.failed);
          }
        }
        ScannedMore(bs, i, minute);
      }
      if Skewed(ByMinute(log), MINUTES) && Until(ByMinute(log), minute) {
        ScannedIsCount(ByMinute(log), bs, minute, row);
      }
    }
  }
}
