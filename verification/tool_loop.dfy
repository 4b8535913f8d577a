/** The bounded multi-round conversation around the streamed rounds (internal/toolproxy/stream.go,
    runToolLoopStreaming and finishStream; internal/toolproxy/loop.go, executeProxyCalls). */
module ToolLoops {
  import opened ContentGates
  import opened StreamRounds

  /** The backend's answer to one call: refused outright, or a stream that may break off. */
  datatype Answer = Refused(error: string) | Stream(lines: seq<Line>, broken: bool)

  datatype Message =
    | Given(n: int)
    | AssistantCalls(content: string, calls: seq<ToolCall>)
    | ToolResult(callId: string, output: string)

  datatype Stats = Stats(executed: nat, failed: nat, firstFailure: Option<string>)

  /** Everything outside the loop: the backend's answer to each round given the conversation, which
      tools the proxy owns and what they return, and how text is parsed and cleaned. */
  datatype Proxy = Proxy(
    maxToolRounds: nat,
    backend: (nat, seq<Message>) -> Answer,
    owns: string -> bool,
    execute: (nat, nat, ToolCall) -> string,
    isFailure: string -> bool,
    brief: string -> string,
    parse: string -> seq<ToolCall>,
    clean: string -> string,
    newId: nat -> int -> string,
    maxRoundsText: Stats -> string)

  datatype Ending = Failed(error: string) | EmptyAnswer | Final | HandedBack | MaxRounds

  /** A finished run: how it ended, the rounds it completed, the conversation it built, and the
      frames it sent after the relayed text. */
  datatype Run = Run(ending: Ending, rounds: seq<RoundResult>, messages: seq<Message>, total: Option<Usage>,
                     stats: Stats, frames: seq<Event>)

  /** The calls of a round: the structured ones, else whatever parses out of the held-back text. */
  function CallsOf(p: Proxy, rr: RoundResult): seq<ToolCall> {
    if rr.calls == [] && rr.held != "" then p.parse(rr.held) else rr.calls
  }

  predicate AllOwned(p: Proxy, calls: seq<ToolCall>) {
    forall c | c in calls :: p.owns(c.name)
  }

  // ----- the conversation ---------------------------------------------------------------

  function Results(p: Proxy, round: nat, calls: seq<ToolCall>): seq<Message> {
    seq(|calls|, j requires 0 <= j < |calls| => ToolResult(calls[j].id, p.execute(round, j, calls[j])))
  }

  function Turn(p: Proxy, round: nat, rr: RoundResult): seq<Message> {
    [AssistantCalls(p.clean(rr.content), CallsOf(p, rr))] + Results(p, round, CallsOf(p, rr))
  }

  /** The conversation after the given rounds of executed calls. */
  function Conversation(p: Proxy, start: seq<Message>, rounds: seq<RoundResult>): seq<Message> {
    if rounds == [] then start
    else
      var n := |rounds| - 1;
      Conversation(p, start, rounds[..n]) + Turn(p, n, rounds[n])
  }

  /** The message after position i + j is the result of call j. */
  predicate ResultAt(msgs: seq<Message>, i: nat, calls: seq<ToolCall>, j: nat)
    requires j < |calls|
  {
    i + 1 + j < |msgs| && msgs[i + 1 + j].ToolResult? && msgs[i + 1 + j].callId == calls[j].id
  }

  ghost predicate TurnAt(p: Proxy, msgs: seq<Message>, i: nat)
    requires i < |msgs| && msgs[i].AssistantCalls?
  {
    AllOwned(p, msgs[i].calls) && forall j: nat | j < |msgs[i].calls| :: ResultAt(msgs, i, msgs[i].calls, j)
  }

  /** Every recorded tool-call turn holds only calls the proxy owns, and is followed by one result
      per call, in call order. */
  ghost predicate WellAnswered(p: Proxy, msgs: seq<Message>) {
    forall i: nat | i < |msgs| && msgs[i].AssistantCalls? :: TurnAt(p, msgs, i)
  }

  lemma {:induction false} ConversationIsAnswered(p: Proxy, start: seq<Message>, rounds: seq<RoundResult>)
    requires forall m | m in start :: m.Given?
    requires forall k | 0 <= k < |rounds| :: AllOwned(p, CallsOf(p, rounds[k]))
    ensures WellAnswered(p, Conversation(p, start, rounds))
  {
    if rounds != [] {
      var n := |rounds| - 1;
      ConversationIsAnswered(p, start, rounds[..n]);
      TurnIsAnswered(p, Conversation(p, start, rounds[..n]), n, rounds[n]);
    } else {
      forall i | 0 <= i < |start|
        ensures !start[i].AssistantCalls?
      {
        assert start[i] in start;
      }
    }
  }

  lemma TurnIsAnswered(p: Proxy, msgs: seq<Message>, round: nat, rr: RoundResult)
    requires WellAnswered(p, msgs) && AllOwned(p, CallsOf(p, rr))
    ensures WellAnswered(p, msgs + Turn(p, round, rr))
  {
    var t, calls := Turn(p, round, rr), CallsOf(p, rr);
    var all := msgs + t;
    forall k | 1 <= k < |t|
      ensures t[k] == ToolResult(calls[k - 1].id, p.execute(round, k - 1, calls[k - 1]))
    {
      assert t[k] == Results(p, round, calls)[k - 1];
    }
    forall i: nat | i < |all| && all[i].AssistantCalls?
      ensures TurnAt(p, all, i)
    {
      if i < |msgs| {
        assert TurnAt(p, msgs, i);
        forall j: nat | j < |all[i].calls|
          ensures ResultAt(all, i, all[i].calls, j)
        {
          assert ResultAt(msgs, i, msgs[i].calls, j);
        }
      } else {
        assert all[i] == t[i - |msgs|];
        forall j: nat | j < |all[i].calls|
          ensures ResultAt(all, i, all[i].calls, j)
        {
          assert all[i + 1 + j] == t[1 + j];
        }
      }
    }
  }

  // ----- executing calls ----------------------------------------------------------------

  function CountFailures(p: Proxy, round: nat, calls: seq<ToolCall>, n: nat): nat
    requires n <= |calls|
  {
    if n == 0 then 0
    else CountFailures(p, round, calls, n - 1) + if p.isFailure(p.execute(round, n - 1, calls[n - 1])) then 1 else 0
  }

  /** How many calls the given rounds made. */
  function CallCount(p: Proxy, rounds: seq<RoundResult>): nat {
    if rounds == [] then 0 else CallCount(p, rounds[..|rounds| - 1]) + |CallsOf(p, rounds[|rounds| - 1])|
  }

  predicate CallFails(p: Proxy, round: nat, calls: seq<ToolCall>, j: nat)
    requires j < |calls|
  {
    p.isFailure(p.execute(round, j, calls[j]))
  }

  /** What is kept of a failure. */
  function FailureNote(p: Proxy, round: nat, calls: seq<ToolCall>, j: nat): string
    requires j < |calls|
  {
    calls[j].name + ": " + p.brief(p.execute(round, j, calls[j]))
  }

  /** The counts after the first n calls of a round. */
  function Ran(p: Proxy, round: nat, calls: seq<ToolCall>, n: nat, s: Stats): Stats
    requires n <= |calls|
  {
    if n == 0 then s
    else
      var before := Ran(p, round, calls, n - 1, s);
      if CallFails(p, round, calls, n - 1) then
        Stats(before.executed + 1, before.failed + 1,
              if before.firstFailure.None? then Some(FailureNote(p, round, calls, n - 1)) else before.firstFailure)
      else before.(executed := before.executed + 1)
  }

  /** The counts after all calls of these rounds. */
  function StatsOf(p: Proxy, rounds: seq<RoundResult>): Stats {
    if rounds == [] then Stats(0, 0, None)
    else
      var (n, calls) := (|rounds| - 1, CallsOf(p, rounds[|rounds| - 1]));
      Ran(p, n, calls, |calls|, StatsOf(p, rounds[..n]))
  }

  /** Call j of the round is its first failure. */
  predicate FirstFails(p: Proxy, round: nat, calls: seq<ToolCall>, j: nat) {
    j < |calls| && CallFails(p, round, calls, j) && CountFailures(p, round, calls, j) == 0
  }

  lemma {:induction false} RanSays(p: Proxy, round: nat, calls: seq<ToolCall>, n: nat, s: Stats)
    requires n <= |calls|
    ensures var t := Ran(p, round, calls, n, s);
            && t.executed == s.executed + n && t.failed == s.failed + CountFailures(p, round, calls, n)
            && (s.firstFailure.Some? ==> t.firstFailure == s.firstFailure)
            && (s.firstFailure.None? ==> (t.firstFailure.Some? <==> CountFailures(p, round, calls, n) > 0))
            && (s.firstFailure.None? && t.firstFailure.Some? ==>
                  exists j: nat :: j < n && FirstFails(p, round, calls, j) && t.firstFailure == Some(FailureNote(p, round, calls, j)))
  {
    if n > 0 {
      RanSays(p, round, calls, n - 1, s);
      hide FailureNote;
      if s.firstFailure.None? && CountFailures(p, round, calls, n - 1) == 0 && CallFails(p, round, calls, n - 1) {
        assert FirstFails(p, round, calls, n - 1);
      }
    }
  }

  function FailuresIn(p: Proxy, rounds: seq<RoundResult>): nat {
    if rounds == [] then 0
    else
      var (n, calls) := (|rounds| - 1, CallsOf(p, rounds[|rounds| - 1]));
      FailuresIn(p, rounds[..n]) + CountFailures(p, n, calls, |calls|)
  }

  /** Call j of round k is the first failure of them all. */
  ghost predicate FirstOfAll(p: Proxy, rounds: seq<RoundResult>, k: nat, j: nat) {
    k < |rounds| && FirstFails(p, k, CallsOf(p, rounds[k]), j) && FailuresIn(p, rounds[..k]) == 0
  }

  /** The counts of a run are the calls made and the calls failed, and the failure kept is the very first. */
  lemma {:induction false} StatsSay(p: Proxy, rounds: seq<RoundResult>)
    ensures var s := StatsOf(p, rounds);
            && s.executed == CallCount(p, rounds) && s.failed == FailuresIn(p, rounds)
            && (s.firstFailure.Some? <==> s.failed > 0)
            && (s.firstFailure.Some? ==>
                  exists k: nat, j: nat :: FirstOfAll(p, rounds, k, j) && s.firstFailure == Some(FailureNote(p, k, CallsOf(p, rounds[k]), j)))
  {
    hide FailureNote, CallFails, Ran, CountFailures;
    if rounds != [] {
      var (n, calls) := (|rounds| - 1, CallsOf(p, rounds[|rounds| - 1]));
      var before := StatsOf(p, rounds[..n]);
      StatsSay(p, rounds[..n]);
      RanSays(p, n, calls, |calls|, before);
      if before.firstFailure.Some? {
        var k: nat, j: nat :| FirstOfAll(p, rounds[..n], k, j) && before.firstFailure == Some(FailureNote(p, k, CallsOf(p, rounds[..n][k]), j));
        assert rounds[..n][..k] == rounds[..k];
        assert FirstOfAll(p, rounds, k, j);
      } else if StatsOf(p, rounds).firstFailure.Some? {
        var j: nat :| j < |calls| && FirstFails(p, n, calls, j) && StatsOf(p, rounds).firstFailure == Some(FailureNote(p, n, calls, j));
        assert FirstOfAll(p, rounds, n, j);
      }
    }
  }

  /** Runs the calls in order, counts them, and appends their results. */
  method ExecuteProxyCalls(p: Proxy, round: nat, calls: seq<ToolCall>, stats: Stats, messages: seq<Message>)
    returns (stats': Stats, messages': seq<Message>)
    ensures messages' == messages + Results(p, round, calls)
    ensures stats' == Ran(p, round, calls, |calls|, stats)
    ensures stats'.executed == stats.executed + |calls|
    ensures stats'.failed == stats.failed + CountFailures(p, round, calls, |calls|)
    ensures stats.firstFailure.Some? ==> stats'.firstFailure == stats.firstFailure
    ensures stats.firstFailure.None? && stats'.firstFailure.Some? ==>
              exists j: nat :: j < |calls| && FirstFails(p, round, calls, j) && stats'.firstFailure == Some(FailureNote(p, round, calls, j))
    ensures stats.firstFailure.None? && stats'.firstFailure.None? ==> CountFailures(p, round, calls, |calls|) == 0
  {
    stats', messages' := stats, messages;
    for j := 0 to |calls|
      invariant messages' == messages + Results(p, round, calls)[..j]
      invariant stats' == Ran(p, round, calls, j, stats)
    {
      var out := p.execute(round, j, calls[j]);
      stats' := stats'.(executed := stats'.executed + 1);
      if p.isFailure(out) {
        stats' := stats'.(failed := stats'.failed + 1,
                          firstFailure := if stats'.firstFailure.None? then Some(calls[j].name + ": " + p.brief(out)) else stats'.firstFailure);
      }
      messages' := messages' + [ToolResult(calls[j].id, out)];
    }
    RanSays(p, round, calls, |calls|, stats);
  }

  // ----- usage --------------------------------------------------------------------------

  function AddUsage(a: Option<Usage>, b: Option<Usage>): Option<Usage> {
    if a.None? then b
    else if b.None? then a
    else Some(Usage(a.value.prompt + b.value.prompt, a.value.completion + b.value.completion,
                    a.value.total + b.value.total, b.value.rate))
  }

  function SumUsage(rounds: seq<RoundResult>): Option<Usage> {
    if rounds == [] then None else AddUsage(SumUsage(rounds[..|rounds| - 1]), rounds[|rounds| - 1].usage)
  }

  /** One count of the usage block, summed over the rounds that reported any. */
  function Total(rounds: seq<RoundResult>, count: Usage -> int): int {
    if rounds == [] then 0
    else
      var u := rounds[|rounds| - 1].usage;
      Total(rounds[..|rounds| - 1], count) + if u.Some? then count(u.value) else 0
  }

  /** The reported usage is the sum over the rounds, and is there when any round reported one. */
  lemma {:induction false} UsageIsSummed(rounds: seq<RoundResult>)
    ensures SumUsage(rounds).Some? <==> exists k :: 0 <= k < |rounds| && rounds[k].usage.Some?
    ensures SumUsage(rounds).Some? ==>
              && SumUsage(rounds).value.prompt == Total(rounds, (u: Usage) => u.prompt)
              && SumUsage(rounds).value.completion == Total(rounds, (u: Usage) => u.completion)
              && SumUsage(rounds).value.total == Total(rounds, (u: Usage) => u.total)
    ensures SumUsage(rounds).None? ==>
              && Total(rounds, (u: Usage) => u.prompt) == 0
              && Total(rounds, (u: Usage) => u.completion) == 0
              && Total(rounds, (u: Usage) => u.total) == 0
  {
    if rounds != [] {
      var rest := rounds[..|rounds| - 1];
      UsageIsSummed(rest);
      if exists k :: 0 <= k < |rounds| && rounds[k].usage.Some? {
        var k :| 0 <= k < |rounds| && rounds[k].usage.Some?;
        assert k < |rest| ==> rest[k].usage.Some?;
      }
      if SumUsage(rest).Some? {
        var k :| 0 <= k < |rest| && rest[k].usage.Some?;
        assert rounds[k].usage.Some?;
      }
    }
  }

  /** A rate is per generation and does not add up: the last round to report one speaks for all. */
  lemma {:induction false} RateIsLast(rounds: seq<RoundResult>, k: nat)
    requires k < |rounds| && rounds[k].usage.Some? && forall j | k < j < |rounds| :: rounds[j].usage.None?
    ensures SumUsage(rounds).Some? && SumUsage(rounds).value.rate == rounds[k].usage.value.rate
  {
    var n := |rounds| - 1;
    if k < n {
      assert forall j | k < j < n :: rounds[..n][j] == rounds[j];
      RateIsLast(rounds[..n], k);
    }
  }

  // ----- closing frames -----------------------------------------------------------------

  /** A terminal chunk with the summed usage in place of its own. */
  function Replayed(ch: Chunk, total: Option<Usage>): Event {
    Terminal(if ch.usage != Absent && total.Some? then ch.(usage := Reported(total.value)) else ch)
  }

  function UsageTail(sent: bool, total: Option<Usage>): seq<Event> {
    (if !sent && total.Some? then [UsageFrame(total.value)] else []) + [DoneFrame]
  }

  /** The closing frames of the last round. */
  ghost predicate IsFinish(frames: seq<Event>, terminal: seq<Chunk>, total: Option<Usage>) {
    var replay := seq(|terminal|, i requires 0 <= i < |terminal| => Replayed(terminal[i], total));
    var sent := total.Some? && exists i :: 0 <= i < |terminal| && terminal[i].usage != Absent;
    frames == replay + (if terminal == [] then [Stop] else []) + UsageTail(sent, total)
  }

  method FinishStream(terminal: seq<Chunk>, total: Option<Usage>) returns (frames: seq<Event>)
    ensures IsFinish(frames, terminal, total)
  {
    frames := [];
    var usageSent := false;
    for i := 0 to |terminal|
      invariant |frames| == i && forall j | 0 <= j < i :: frames[j] == Replayed(terminal[j], total)
      invariant usageSent <==> total.Some? && exists j :: 0 <= j < i && terminal[j].usage != Absent
    {
      var ch := terminal[i];
      if ch.usage != Absent && total.Some? {
        ch := ch.(usage := Reported(total.value));
        usageSent := true;
      }
      frames := frames + [Terminal(ch)];
    }
    assert frames == seq(|terminal|, i requires 0 <= i < |terminal| => Replayed(terminal[i], total));
    if terminal == [] {
      frames := frames + [Stop];
    }
    if !usageSent && total.Some? {
      frames := frames + [UsageFrame(total.value)];
    }
    frames := frames + [DoneFrame];
  }

  function UsageIn(e: Event): Option<Usage> {
    match e
    case Terminal(ch) => if ch.usage.Reported? then Some(ch.usage.usage) else None
    case UsageFrame(u) => Some(u)
    case ClientCallsFrame(_, _, u) => u
    case _ => None
  }

  /** Whatever usage the closing frames report is the total, and they report it when there is one. */
  lemma FinishReportsTotal(frames: seq<Event>, terminal: seq<Chunk>, total: Option<Usage>)
    requires IsFinish(frames, terminal, total)
    requires total.None? ==> forall i | 0 <= i < |terminal| :: !terminal[i].usage.Reported?
    ensures forall e | e in frames :: UsageIn(e).Some? ==> UsageIn(e) == total
    ensures total.Some? ==> exists e :: e in frames && UsageIn(e) == total
  {
    if total.Some? {
      if i :| 0 <= i < |terminal| && terminal[i].usage != Absent {
        assert frames[i] == Replayed(terminal[i], total);
        assert frames[i] in frames;
      } else {
        assert frames[|frames| - 2] == UsageFrame(total.value);
        assert frames[|frames| - 2] in frames;
      }
    }
  }

  lemma {:induction false} TerminalsReportNothingNew(chunks: seq<Chunk>)
    requires LastUsage(chunks).None?
    ensures forall i | 0 <= i < |TerminalsOf(chunks)| :: !TerminalsOf(chunks)[i].usage.Reported?
  {
    if chunks != [] {
      TerminalsReportNothingNew(chunks[..|chunks| - 1]);
    }
  }

  function Bare(choices: seq<Choice>): seq<Choice> {
    seq(|choices|, i requires 0 <= i < |choices| => Choice("", "", "", [], choices[i].finish))
  }

  predicate Empty(choices: seq<Choice>) {
    TextOf(choices) == "" && ThoughtsOf(choices) == "" && CallDeltasOf(choices) == []
  }

  lemma {:induction false} BareSays(choices: seq<Choice>)
    ensures LastFinish(Bare(choices)) == LastFinish(choices) && Empty(Bare(choices))
  {
    if choices != [] {
      var n := |choices| - 1;
      BareSays(choices[..n]);
      assert Bare(choices)[..n] == Bare(choices[..n]);
    }
  }

  lemma {:induction false} ChoicesAppend(a: seq<Choice>, b: seq<Choice>)
    ensures LastFinish(a + b) == if LastFinish(b) != "" then LastFinish(b) else LastFinish(a)
    ensures Empty(a) && Empty(b) ==> Empty(a + b)
  {
    if b == [] {
      assert a + b == a;
    } else {
      var n := |b| - 1;
      assert (a + b)[..|a| + n] == a + b[..n];
      ChoicesAppend(a, b[..n]);
    }
  }

  lemma ChoicesMore(chunks: seq<Chunk>, ch: Chunk)
    ensures ChoicesOf(chunks + [ch]) == ChoicesOf(chunks) + ch.choices
  {
    assert (chunks + [ch])[..|chunks|] == chunks;
  }

  lemma UsageMore(chunks: seq<Chunk>, ch: Chunk)
    ensures LastUsage(chunks + [ch]) == if ch.usage.Reported? then Some(ch.usage.usage) else LastUsage(chunks)
  {
    assert (chunks + [ch])[..|chunks|] == chunks;
  }

  lemma TerminalsMore(chunks: seq<Chunk>, ch: Chunk)
    ensures TerminalsOf(chunks + [ch]) == if IsTerminal(ch) then TerminalsOf(chunks) + [Stripped(ch)] else TerminalsOf(chunks)
  {
    assert (chunks + [ch])[..|chunks|] == chunks;
    hide IsTerminal, Stripped;
    assert TerminalsOf(chunks) + [] == TerminalsOf(chunks);
  }

  lemma NoTerminals()
    ensures TerminalsOf([]) == [] && LastFinish(ChoicesOf([])) == "" && LastUsage([]).None? && Empty(ChoicesOf([]))
  {
  }

  /** The chunks replayed at the end say how the round finished and what it used, exactly as the whole round
      did, and carry no text, no reasoning and no call: the client has those already. */
  lemma {:induction false} TerminalsKeepTheEnd(chunks: seq<Chunk>)
    ensures var ts := TerminalsOf(chunks);
            && LastUsage(ts) == LastUsage(chunks) && LastFinish(ChoicesOf(ts)) == LastFinish(ChoicesOf(chunks))
            && Empty(ChoicesOf(ts))
  {
    hide LastFinish, LastUsage, Empty, ChoicesOf, TerminalsOf, Bare;
    if chunks == [] {
      NoTerminals();
    } else {
      var (front, ch) := (chunks[..|chunks| - 1], chunks[|chunks| - 1]);
      TerminalsKeepTheEnd(front);
      assert chunks == front + [ch];
      TerminalsEnd(front, ch);
    }
  }

  lemma TerminalsEnd(front: seq<Chunk>, ch: Chunk)
    requires var ts := TerminalsOf(front);
             LastUsage(ts) == LastUsage(front) && LastFinish(ChoicesOf(ts)) == LastFinish(ChoicesOf(front)) && Empty(ChoicesOf(ts))
    ensures var (all, ts) := (front + [ch], TerminalsOf(front + [ch]));
            LastUsage(ts) == LastUsage(all) && LastFinish(ChoicesOf(ts)) == LastFinish(ChoicesOf(all)) && Empty(ChoicesOf(ts))
  {
    hide LastFinish, LastUsage, Empty, ChoicesOf, TerminalsOf;
    var ts := TerminalsOf(front);
    ChoicesMore(front, ch);
    TerminalsMore(front, ch);
    UsageMore(front, ch);
    ChoicesAppend(ChoicesOf(front), ch.choices);
    if IsTerminal(ch) {
      assert Stripped(ch).choices == Bare(ch.choices);
      BareSays(ch.choices);
      ChoicesMore(ts, Stripped(ch));
      UsageMore(ts, Stripped(ch));
      ChoicesAppend(ChoicesOf(ts), Bare(ch.choices));
    }
  }

  // ----- the loop -----------------------------------------------------------------------

  /** The content a round delivers: all of it without calls, else the text before the first tag. */
  function Delivered(p: Proxy, rr: RoundResult): string {
    if CallsOf(p, rr) == [] then rr.content else Relayed(rr)
  }

  function DeliveredBy(p: Proxy, rounds: seq<RoundResult>): string {
    if rounds == [] then "" else DeliveredBy(p, rounds[..|rounds| - 1]) + Delivered(p, rounds[|rounds| - 1])
  }

  function ThoughtsBy(rounds: seq<RoundResult>): string {
    if rounds == [] then "" else ThoughtsBy(rounds[..|rounds| - 1]) + rounds[|rounds| - 1].reasoning
  }

  const READ_ERROR: string := "read backend stream"

  /** Why the backend's answer makes no round: it refused, or its stream broke off before the end marker. */
  function FailureOf(a: Answer): Option<string> {
    match a
    case Refused(e) => Some(e)
    case Stream(lines, broken) => if broken && Done !in lines then Some(READ_ERROR) else None
  }

  /** Round k was the backend's answer to the conversation of the rounds before it. */
  ghost predicate Answered(p: Proxy, start: seq<Message>, rounds: seq<RoundResult>, k: nat)
    requires k < |rounds|
  {
    var a := p.backend(k, Conversation(p, start, rounds[..k]));
    FailureOf(a).None? && IsRound(rounds[k], a.lines, p.newId(k))
  }

  /** Every completed round answers the conversation before it, and every round but possibly the
      last called tools, all of them the proxy's own. */
  ghost predicate Legal(p: Proxy, start: seq<Message>, rounds: seq<RoundResult>, executed: nat) {
    && executed <= |rounds|
    && (forall k | 0 <= k < |rounds| :: Answered(p, start, rounds, k))
    && (forall k | 0 <= k < executed :: CallsOf(p, rounds[k]) != [] && AllOwned(p, CallsOf(p, rounds[k])))
  }

  /** How many rounds had their calls executed, for each ending. */
  function Executed(run: Run): nat {
    if run.rounds != [] && run.ending in {EmptyAnswer, Final, HandedBack} then |run.rounds| - 1 else |run.rounds|
  }

  lemma LegalStep(p: Proxy, start: seq<Message>, rounds: seq<RoundResult>, rr: RoundResult)
    requires Legal(p, start, rounds, |rounds|)
    requires Answered(p, start, rounds + [rr], |rounds|)
    ensures Legal(p, start, rounds + [rr], |rounds|)
    ensures (rounds + [rr])[..|rounds|] == rounds
  {
    var more := rounds + [rr];
    assert more[..|rounds|] == rounds;
    forall k | 0 <= k < |rounds|
      ensures Answered(p, start, more, k)
    {
      assert more[..k] == rounds[..k];
      assert Answered(p, start, rounds, k);
    }
  }

  /** What the finished run and the client's event stream look like, for each way of ending. */
  ghost predicate Ended(p: Proxy, run: Run, events: seq<Event>) {
    var last := LastOf(run.rounds);
    match run.ending
    case Failed(e) =>
      |run.rounds| < p.maxToolRounds && FailureOf(p.backend(|run.rounds|, run.messages)) == Some(e) &&
      run.frames == [ErrorFrame(e), DoneFrame]
    case EmptyAnswer =>
      run.rounds != [] && CallsOf(p, last) == [] && events == [] && run.frames == [] && IsEmptyAnswer(p, last)
    case Final =>
      run.rounds != [] && CallsOf(p, last) == [] && IsFinish(run.frames, last.terminal, run.total) &&
      (IsEmptyAnswer(p, last) ==> |events| > |run.frames|)
    case HandedBack =>
      run.rounds != [] && !AllOwned(p, CallsOf(p, last)) &&
      run.frames == [ClientCallsFrame(if last.forwarded then "" else p.clean(last.content), CallsOf(p, last), run.total), DoneFrame]
    case MaxRounds =>
      |run.rounds| == p.maxToolRounds &&
      run.frames == (if !last.forwarded && p.maxRoundsText(run.stats) != "" then [Delta(p.maxRoundsText(run.stats), "")] else []) +
                    [Stop] + UsageTail(false, run.total)
  }

  /** No content, and not merely cut short by the token limit after some reasoning. */
  predicate IsEmptyAnswer(p: Proxy, rr: RoundResult) {
    Blank(p.clean(rr.content)) && !(rr.finish == "length" && rr.reasoning != "")
  }

  datatype Outcome = Broke(error: string) | Played(rr: RoundResult, calls: seq<ToolCall>)

  lemma RoundDelivered(p: Proxy, rr: RoundResult, lines: seq<Line>, newId: int -> string, text: string, thoughts: string)
    requires IsRound(rr, lines, newId)
    ensures CallsOf(p, rr) == [] && rr.held != "" ==> text + Relayed(rr) + rr.held == text + Delivered(p, rr)
    ensures CallsOf(p, rr) != [] || rr.held == "" ==> Relayed(rr) == Delivered(p, rr)
    ensures thoughts + rr.reasoning + "" == thoughts + rr.reasoning
  {
    hide IsRound;
    HeldIsTail(rr, lines, newId);
    if CallsOf(p, rr) == [] {
      assert text + Relayed(rr) + rr.held == text + (Relayed(rr) + rr.held);
    }
  }

  lemma HeldIsTail(rr: RoundResult, lines: seq<Line>, newId: int -> string)
    requires IsRound(rr, lines, newId)
    ensures Relayed(rr) + rr.held == rr.content
  {
  }

  /** All there is to say about a finished run: at most the allowed rounds; each of them the backend's
      answer to the conversation so far; the conversation and the counts built from exactly the rounds
      whose calls were executed; usage summed over all rounds; and before the closing frames the client
      got exactly what the rounds deliver. */
  ghost predicate GoodRun(p: Proxy, start: seq<Message>, run: Run, events: seq<Event>) {
    var done := run.rounds[..Executed(run)];
    && |run.rounds| <= p.maxToolRounds
    && Legal(p, start, run.rounds, Executed(run))
    && run.messages == Conversation(p, start, done)
    && run.stats == StatsOf(p, done)
    && run.total == SumUsage(run.rounds)
    && Ended(p, run, events)
    && |run.frames| <= |events|
    && events[|events| - |run.frames|..] == run.frames
    && Reached(p, run, events[..|events| - |run.frames|])
  }

  /** What reached the client before the closing frames: what the rounds deliver, and of a stream that broke
      off what its gate had let through by then. */
  ghost predicate Reached(p: Proxy, run: Run, events: seq<Event>) {
    var (text, thoughts) := (DeliveredBy(p, run.rounds), ThoughtsBy(run.rounds));
    if run.ending.Failed? then UntilFailure(p.backend(|run.rounds|, run.messages), events, text, thoughts)
    else SentSince([], events, text, thoughts)
  }

  /** A refusal adds nothing to what was sent; a broken stream adds what its text so far settles, and its reasoning. */
  ghost predicate UntilFailure(a: Answer, events: seq<Event>, text: string, thoughts: string) {
    match a
    case Refused(_) => SentSince([], events, text, thoughts)
    case Stream(lines, _) =>
      var choices := ChoicesOf(Chunks(lines));
      exists f, p, c, t :: Settled(TextOf(choices), f, p, c, t) && SentSince([], events, text + f, thoughts + ThoughtsOf(choices))
  }

  /** The loop between two rounds: every round so far had its calls executed. */
  ghost predicate Between(p: Proxy, start: seq<Message>, rounds: seq<RoundResult>, messages: seq<Message>,
                          total: Option<Usage>, stats: Stats, events: seq<Event>) {
    && |rounds| <= p.maxToolRounds
    && Legal(p, start, rounds, |rounds|)
    && messages == Conversation(p, start, rounds)
    && stats == StatsOf(p, rounds)
    && total == SumUsage(rounds)
    && SentSince([], events, DeliveredBy(p, rounds), ThoughtsBy(rounds))
  }

  /** Drives the loop with streamed rounds. */
  method RunToolLoopStreaming(p: Proxy, start: seq<Message>) returns (run: Run, events: seq<Event>)
    ensures GoodRun(p, start, run, events)
  {
    var out := new SseOut();
    var stats, messages, rounds := Stats(0, 0, None), start, [];
    var total: Option<Usage> := None;
    var last := RoundResult("", "", [], "", None, [], false, "");
    Beginning(p, start);
    hide GoodRun, Between;
    var round := 0;
    while round < p.maxToolRounds
      invariant 0 <= round <= p.maxToolRounds && fresh(out)
      invariant |rounds| == round && last == LastOf(rounds)
      invariant Between(p, start, rounds, messages, total, stats, out.events)
    {
      var o := PlayRound(p, out, start, rounds, round, messages, total, stats);
      if o.Broke? {
        run, events := CloseBroken(p, out, start, o.error, rounds, messages, total, stats);
        return;
      }
      last := o.rr;
      if o.calls == [] || exists c :: c in o.calls && !p.owns(c.name) {
        run, events := CloseAnswered(p, out, start, last, o.calls, rounds, messages, AddUsage(total, last.usage), stats);
        return;
      }
      total := AddUsage(total, last.usage);
      stats, messages := RecordTurn(p, start, round, last, o.calls, rounds, messages, total, stats, out.events);
      rounds := rounds + [last];
      round := round + 1;
    }
    run, events := CloseExhausted(p, out, start, rounds, messages, total, stats);
  }

  lemma Beginning(p: Proxy, start: seq<Message>)
    ensures Between(p, start, [], start, None, Stats(0, 0, None), [])
  {
  }

  /** The state between the played round and its end: one more round than was executed. */
  ghost predicate JustPlayed(p: Proxy, start: seq<Message>, rr: RoundResult, calls: seq<ToolCall>, rounds: seq<RoundResult>,
                             messages: seq<Message>, total: Option<Usage>, stats: Stats, events: seq<Event>) {
    && |rounds| < p.maxToolRounds
    && calls == CallsOf(p, rr)
    && Legal(p, start, rounds + [rr], |rounds|)
    && messages == Conversation(p, start, rounds)
    && stats == StatsOf(p, rounds)
    && total == SumUsage(rounds + [rr])
    && SentSince([], events, DeliveredBy(p, rounds + [rr]), ThoughtsBy(rounds + [rr]))
  }

  /** One round of the loop: call the backend, relay its stream, read off the calls. Held-back text
      that turns out to be no call goes out after all. */
  method PlayRound(p: Proxy, out: SseOut, ghost start: seq<Message>, ghost rounds: seq<RoundResult>, round: nat,
                   messages: seq<Message>, ghost total: Option<Usage>, ghost stats: Stats)
    returns (o: Outcome)
    requires |rounds| == round < p.maxToolRounds
    requires Between(p, start, rounds, messages, total, stats, out.events)
    modifies out
    ensures o.Played? ==>
              JustPlayed(p, start, o.rr, o.calls, rounds, messages, AddUsage(total, o.rr.usage), stats, out.events)
    ensures o.Broke? ==>
              && FailureOf(p.backend(round, messages)) == Some(o.error)
              && UntilFailure(p.backend(round, messages), out.events, DeliveredBy(p, rounds), ThoughtsBy(rounds))
  {
    hide SentSince, Legal, IsRound, BrokeOff, Settled;
    var answer := p.backend(round, messages);
    if answer.Refused? {
      o := Broke(answer.error);
      return;
    }
    ghost var sent, text, thoughts := out.events, DeliveredBy(p, rounds), ThoughtsBy(rounds);
    var rr, ok := StreamRound(out, answer.lines, answer.broken, p.newId(round));
    if !ok {
      o := Broke(READ_ERROR);
      BrokenAdds(answer, sent, out.events, text, thoughts);
      return;
    }
    SentTogether(sent, out.events, text, Relayed(rr), thoughts, rr.reasoning);
    assert (rounds + [rr])[..round] == rounds;
    assert Answered(p, start, rounds + [rr], round);
    LegalStep(p, start, rounds, rr);
    var calls := rr.calls;
    if calls == [] && rr.held != "" {
      calls := p.parse(rr.held);
      if calls == [] {
        SendMore(out, rr.held, "", [], text + Relayed(rr), thoughts + rr.reasoning);
      }
    }
    o := Played(rr, calls);
    RoundDelivered(p, rr, answer.lines, p.newId(round), text, thoughts);
  }

  lemma BrokenAdds(a: Answer, mid: seq<Event>, after: seq<Event>, text: string, thoughts: string)
    requires a.Stream? && SentSince([], mid, text, thoughts) && BrokeOff(mid, after, a.lines)
    ensures UntilFailure(a, after, text, thoughts)
  {
    var choices := ChoicesOf(Chunks(a.lines));
    hide SentSince, Settled;
    var f, p, c, t :| Settled(TextOf(choices), f, p, c, t) && SentSince(mid, after, f, ThoughtsOf(choices));
    SentTogether(mid, after, text, f, thoughts, ThoughtsOf(choices));
  }

  /** All calls of the round are the proxy's: record the turn and run them. */
  method RecordTurn(p: Proxy, ghost start: seq<Message>, round: nat, rr: RoundResult, calls: seq<ToolCall>,
                    ghost rounds: seq<RoundResult>, messages: seq<Message>, ghost total: Option<Usage>, stats: Stats,
                    ghost events: seq<Event>)
    returns (stats': Stats, messages': seq<Message>)
    requires round == |rounds| && calls != [] && AllOwned(p, calls)
    requires JustPlayed(p, start, rr, calls, rounds, messages, total, stats, events)
    ensures Between(p, start, rounds + [rr], messages', total, stats', events)
  {
    hide SentSince, IsRound, SumUsage, DeliveredBy, ThoughtsBy, Ran, CountFailures, Answered;
    assert (rounds + [rr])[..round] == rounds;
    messages' := messages + [AssistantCalls(p.clean(rr.content), calls)];
    stats', messages' := ExecuteProxyCalls(p, round, calls, stats, messages');
  }

  /** The backend refused or broke off. */
  method CloseBroken(p: Proxy, out: SseOut, ghost start: seq<Message>, error: string, rounds: seq<RoundResult>,
                     messages: seq<Message>, total: Option<Usage>, stats: Stats)
    returns (run: Run, events: seq<Event>)
    requires Legal(p, start, rounds, |rounds|) && messages == Conversation(p, start, rounds)
    requires stats == StatsOf(p, rounds) && total == SumUsage(rounds)
    requires |rounds| < p.maxToolRounds && FailureOf(p.backend(|rounds|, messages)) == Some(error)
    requires UntilFailure(p.backend(|rounds|, messages), out.events, DeliveredBy(p, rounds), ThoughtsBy(rounds))
    ensures GoodRun(p, start, run, events)
  {
    hide Legal, UntilFailure, FailureOf, Conversation, StatsOf, SumUsage, DeliveredBy, ThoughtsBy;
    assert rounds[..|rounds|] == rounds;
    run, events := Close(out, Failed(error), rounds, messages, total, stats, [ErrorFrame(error), DoneFrame]);
  }

  /** The round answered without calls, or called something the client owns. */
  method CloseAnswered(p: Proxy, out: SseOut, ghost start: seq<Message>, rr: RoundResult, calls: seq<ToolCall>,
                       rounds: seq<RoundResult>, messages: seq<Message>, total: Option<Usage>, stats: Stats)
    returns (run: Run, events: seq<Event>)
    requires calls == [] || !AllOwned(p, calls)
    requires JustPlayed(p, start, rr, calls, rounds, messages, total, stats, out.events)
    ensures GoodRun(p, start, run, events)
  {
    hide SentSince, Legal, IsFinish, Conversation, StatsOf, SumUsage, DeliveredBy, ThoughtsBy;
    assert (rounds + [rr])[..|rounds|] == rounds;
    if calls == [] {
      if out.events == [] && IsEmptyAnswer(p, rr) {
        run, events := Close(out, EmptyAnswer, rounds + [rr], messages, total, stats, []);
        return;
      }
      var frames := FinishStream(rr.terminal, total);
      run, events := Close(out, Final, rounds + [rr], messages, total, stats, frames);
      return;
    }
    var frame := ClientCallsFrame(if rr.forwarded then "" else p.clean(rr.content), calls, total);
    run, events := Close(out, HandedBack, rounds + [rr], messages, total, stats, [frame, DoneFrame]);
  }

  /** The rounds are used up. */
  method CloseExhausted(p: Proxy, out: SseOut, ghost start: seq<Message>, rounds: seq<RoundResult>, messages: seq<Message>,
                        total: Option<Usage>, stats: Stats)
    returns (run: Run, events: seq<Event>)
    requires |rounds| == p.maxToolRounds
    requires Between(p, start, rounds, messages, total, stats, out.events)
    ensures GoodRun(p, start, run, events)
  {
    hide SentSince, Legal, Conversation, StatsOf, SumUsage, DeliveredBy, ThoughtsBy;
    assert rounds[..|rounds|] == rounds;
    var frames := ExhaustedFrames(p, LastOf(rounds), stats, total);
    run, events := Close(out, MaxRounds, rounds, messages, total, stats, frames);
  }

  /** The closing frames of a run that used up its rounds. */
  method ExhaustedFrames(p: Proxy, last: RoundResult, stats: Stats, total: Option<Usage>) returns (frames: seq<Event>)
    ensures frames == (if !last.forwarded && p.maxRoundsText(stats) != "" then [Delta(p.maxRoundsText(stats), "")] else []) +
                      [Stop] + UsageTail(false, total)
  {
    frames := [];
    if !last.forwarded && p.maxRoundsText(stats) != "" {
      frames := [Delta(p.maxRoundsText(stats), "")];
    }
    frames := frames + [Stop];
    if total.Some? {
      frames := frames + [UsageFrame(total.value)];
    }
    frames := frames + [DoneFrame];
  }

  function LastOf(rounds: seq<RoundResult>): RoundResult {
    if rounds == [] then RoundResult("", "", [], "", None, [], false, "") else rounds[|rounds| - 1]
  }

  /** Sends the closing frames. */
  method Close(out: SseOut, ending: Ending, rounds: seq<RoundResult>, messages: seq<Message>, total: Option<Usage>,
               stats: Stats, frames: seq<Event>)
    returns (run: Run, events: seq<Event>)
    ensures run == Run(ending, rounds, messages, total, stats, frames)
    ensures events == out.events + frames
    ensures events[..|events| - |frames|] == out.events && events[|events| - |frames|..] == frames
  {
    events := out.events + frames;
    run := Run(ending, rounds, messages, total, stats, frames);
  }

  /** In terms of the backend's own text: a round without calls delivers all of it; a round whose
      text opens a tag and that did call something delivers exactly the text before the first tag. */
  lemma RoundDelivery(p: Proxy, rr: RoundResult, lines: seq<Line>, newId: int -> string)
    requires IsRound(rr, lines, newId)
    ensures var text, sent := TextOf(ChoicesOf(Chunks(lines))), Delivered(p, rr);
            if CallsOf(p, rr) == [] || NoTag(text) then sent == text
            else FirstOccurrence(text, |sent|) && sent == text[..|sent|]
  {
    if rr.held != "" && CallsOf(p, rr) != [] {
      assert OccursAt(rr.content, |rr.content| - |rr.held|);
    }
  }

  /** Which way a run ends, told by the answer to the conversation of the executed rounds: the round limit if there
      is none left; the backend's failure if it refused or its stream broke off before the end marker; the final
      answer, or the report of an empty one, if the round calls nothing; the calls handed back if one is the client's. */
  lemma EndsExactly(p: Proxy, start: seq<Message>, run: Run, events: seq<Event>)
    requires GoodRun(p, start, run, events)
    ensures Executed(run) <= p.maxToolRounds
    ensures run.ending.MaxRounds? <==> Executed(run) == p.maxToolRounds
    ensures var (n, a) := (Executed(run), p.backend(Executed(run), run.messages));
            && (forall e :: run.ending == Failed(e) <==>
                  n < p.maxToolRounds && (a == Refused(e) || (a.Stream? && a.broken && Done !in a.lines && e == READ_ERROR)))
            && (run.ending in {EmptyAnswer, Final, HandedBack} ==>
                  |run.rounds| == n + 1 && a.Stream? && IsRound(run.rounds[n], a.lines, p.newId(n)) &&
                  (run.ending.HandedBack? <==> CallsOf(p, run.rounds[n]) != []) &&
                  (run.ending.HandedBack? <==> exists c :: c in CallsOf(p, run.rounds[n]) && !p.owns(c.name)) &&
                  (run.ending.EmptyAnswer? <==> CallsOf(p, run.rounds[n]) == [] && events == [] && IsEmptyAnswer(p, run.rounds[n])))
    ensures forall k | 0 <= k < Executed(run) ::
              CallsOf(p, run.rounds[k]) != [] && forall c | c in CallsOf(p, run.rounds[k]) :: p.owns(c.name)
  {
    hide IsRound, Conversation, StatsOf, SumUsage, DeliveredBy, ThoughtsBy, Reached, CallsOf, IsFinish, IsEmptyAnswer;
    var n := Executed(run);
    if |run.rounds| == n + 1 {
      assert Answered(p, start, run.rounds, n);
    }
  }

  /** An empty answer is reported exactly when the round calls nothing, its cleaned content is blank, and neither it
      nor any round before it delivered a single character of text or reasoning. */
  lemma EmptyExactly(p: Proxy, start: seq<Message>, run: Run, events: seq<Event>)
    requires GoodRun(p, start, run, events)
    ensures run.ending.EmptyAnswer? <==>
              && (run.ending.EmptyAnswer? || run.ending.Final?)
              && (forall c | c in p.clean(LastOf(run.rounds).content) :: c in {' ', '\t', '\n', '\r'})
              && DeliveredBy(p, run.rounds) == "" && ThoughtsBy(run.rounds) == ""
  {
    hide Legal, IsRound, Conversation, StatsOf, SumUsage, DeliveredBy, CallsOf, IsFinish, SentSince;
    if run.ending.EmptyAnswer? || run.ending.Final? {
      NothingSent(events[..|events| - |run.frames|], DeliveredBy(p, run.rounds), ThoughtsBy(run.rounds));
    }
  }

  /** Two runs of one proxy on one conversation answered the same rounds as far as both went. */
  lemma {:induction false} SameRounds(p: Proxy, start: seq<Message>, a: seq<RoundResult>, b: seq<RoundResult>, x: nat, y: nat, n: nat)
    requires Legal(p, start, a, x) && Legal(p, start, b, y) && n <= |a| && n <= |b|
    ensures a[..n] == b[..n]
  {
    hide IsRound, Conversation;
    if n > 0 {
      SameRounds(p, start, a, b, x, y, n - 1);
      var k := n - 1;
      assert Answered(p, start, a, k) && Answered(p, start, b, k);
      var answer := p.backend(k, Conversation(p, start, a[..k]));
      RoundIsFunctional(a[k], b[k], answer.lines, p.newId(k));
      assert a[..n] == a[..k] + [a[k]] && b[..n] == b[..k] + [b[k]];
    }
  }

  /** A run that executed n rounds met, after them, its end: no run goes on from there. */
  lemma EndIsEnd(p: Proxy, start: seq<Message>, a: Run, ae: seq<Event>, b: Run, be: seq<Event>)
    requires GoodRun(p, start, a, ae) && GoodRun(p, start, b, be)
    ensures Executed(a) >= Executed(b)
  {
    hide IsRound, StatsOf, SumUsage, DeliveredBy, ThoughtsBy, CallsOf, Reached, IsFinish, IsEmptyAnswer, Conversation;
    var n := Executed(a);
    if n < Executed(b) {
      SameRounds(p, start, a.rounds, b.rounds, n, Executed(b), n);
      assert Answered(p, start, b.rounds, n);
      if |a.rounds| == n + 1 {
        SameRounds(p, start, a.rounds, b.rounds, n, Executed(b), n + 1);
      }
    }
  }

  /** Everything about a run is decided by the conversation it began with: the proxy and its backend leave no
      second run, and no second text for the client. */
  lemma RunIsDetermined(p: Proxy, start: seq<Message>, a: Run, ae: seq<Event>, b: Run, be: seq<Event>)
    requires GoodRun(p, start, a, ae) && GoodRun(p, start, b, be)
    ensures a == b
    ensures var (x, y) := (ae[..|ae| - |a.frames|], be[..|be| - |b.frames|]);
            ContentOf(x) == ContentOf(y) && ReasoningOf(x) == ReasoningOf(y)
  {
    EndIsEnd(p, start, a, ae, b, be);
    EndIsEnd(p, start, b, be, a, ae);
    EndsExactly(p, start, a, ae);
    EndsExactly(p, start, b, be);
    EmptyExactly(p, start, a, ae);
    EmptyExactly(p, start, b, be);
    SameEnd(p, start, a, ae, b, be);
    SameText(p, a, ae[..|ae| - |a.frames|], be[..|be| - |b.frames|]);
  }

  lemma SameText(p: Proxy, run: Run, x: seq<Event>, y: seq<Event>)
    requires Reached(p, run, x) && Reached(p, run, y)
    ensures ContentOf(x) == ContentOf(y) && ReasoningOf(x) == ReasoningOf(y)
  {
    hide Settled, DeliveredBy, ThoughtsBy, ThoughtsOf, TextOf;
    var a := p.backend(|run.rounds|, run.messages);
    if run.ending.Failed? && a.Stream? {
      var text := TextOf(ChoicesOf(Chunks(a.lines)));
      var f, q, c, t :| Settled(text, f, q, c, t) && ContentOf(x) == DeliveredBy(p, run.rounds) + f;
      var g, r, d, u :| Settled(text, g, r, d, u) && ContentOf(y) == DeliveredBy(p, run.rounds) + g;
      SettledIsFunctional(text, f, q, c, t, g, r, d, u);
    }
  }

  lemma SameEnd(p: Proxy, start: seq<Message>, a: Run, ae: seq<Event>, b: Run, be: seq<Event>)
    requires GoodRun(p, start, a, ae) && GoodRun(p, start, b, be) && Executed(a) == Executed(b)
    requires a.ending.EmptyAnswer? <==> (a.ending.EmptyAnswer? || a.ending.Final?) && Blank(p.clean(LastOf(a.rounds).content)) && DeliveredBy(p, a.rounds) == "" && ThoughtsBy(a.rounds) == ""
    requires b.ending.EmptyAnswer? <==> (b.ending.EmptyAnswer? || b.ending.Final?) && Blank(p.clean(LastOf(b.rounds).content)) && DeliveredBy(p, b.rounds) == "" && ThoughtsBy(b.rounds) == ""
    ensures a == b
  {
    hide IsRound, StatsOf, SumUsage, DeliveredBy, ThoughtsBy, CallsOf, Reached, IsEmptyAnswer, Conversation;
    var n := Executed(a);
    SameRounds(p, start, a.rounds, b.rounds, n, n, n);
    if |a.rounds| > n {
      assert Answered(p, start, a.rounds, n);
    }
    if |b.rounds| > n {
      assert Answered(p, start, b.rounds, n);
    }
    if |a.rounds| == n + 1 == |b.rounds| {
      SameRounds(p, start, a.rounds, b.rounds, n, n, n + 1);
      assert a.rounds == a.rounds[..n + 1] && b.rounds == b.rounds[..n + 1];
    } else {
      assert a.rounds == a.rounds[..n] && b.rounds == b.rounds[..n];
    }
  }

  /** What the client got of a run that failed: all that the rounds before delivered, and of a stream that broke
      off exactly what a gate lets through of the text so far, with its reasoning; then the error and the end marker. */
  lemma FailedRunDelivers(p: Proxy, start: seq<Message>, run: Run, events: seq<Event>)
    requires GoodRun(p, start, run, events) && run.ending.Failed?
    ensures |events| >= 2 && events[|events| - 2..] == [ErrorFrame(run.ending.error), DoneFrame]
    ensures var (a, sent) := (p.backend(|run.rounds|, run.messages), events[..|events| - 2]);
            if a.Refused? then
              ContentOf(sent) == DeliveredBy(p, run.rounds) && ReasoningOf(sent) == ThoughtsBy(run.rounds)
            else
              var choices := ChoicesOf(Chunks(a.lines));
              && ReasoningOf(sent) == ThoughtsBy(run.rounds) + ThoughtsOf(choices)
              && exists f, held, c, t ::
                   Settled(TextOf(choices), f, held, c, t) && ContentOf(sent) == DeliveredBy(p, run.rounds) + f
  {
    hide IsRound, Conversation, StatsOf, SumUsage, DeliveredBy, ThoughtsBy, Legal, FailureOf, Settled, ThoughtsOf, TextOf;
  }

  /** No tool runs in a round that holds a client-owned call, and the conversation of any run holds
      one result per executed call, in call order. */
  lemma RunIsAnswered(p: Proxy, start: seq<Message>, run: Run)
    requires forall m | m in start :: m.Given?
    requires exists events :: GoodRun(p, start, run, events)
    ensures WellAnswered(p, run.messages)
    ensures |run.messages| == |start| + Executed(run) + CallCount(p, run.rounds[..Executed(run)])
    ensures forall k | 0 <= k < Executed(run) :: SaysTurn(p, run.messages, start, run.rounds[..Executed(run)], k)
  {
    hide SaysTurn, WellAnswered, Ended, Reached, StatsOf, SumUsage, Conversation, CallsOf, CallCount;
    ConversationIsAnswered(p, start, run.rounds[..Executed(run)]);
    assert run.rounds[..Executed(run)][..Executed(run)] == run.rounds[..Executed(run)];
    ConversationSays(p, start, run.rounds[..Executed(run)]);
  }

  /** Where the turn of round k begins: behind what was given, and behind one turn and its results per round before. */
  function TurnStart(p: Proxy, start: seq<Message>, rounds: seq<RoundResult>, k: nat): nat
    requires k <= |rounds|
  {
    |start| + k + CallCount(p, rounds[..k])
  }

  /** The turn of round k: the cleaned text with the round's structured calls, or else those read off its held-back
      text; then for each call, in order, its id with
      what the tool returned for it. */
  predicate SaysTurn(p: Proxy, msgs: seq<Message>, start: seq<Message>, rounds: seq<RoundResult>, k: nat)
    requires k < |rounds|
  {
    var rr := rounds[k];
    var (i, calls) := (TurnStart(p, start, rounds, k), if rr.calls != [] then rr.calls else if rr.held != "" then p.parse(rr.held) else []);
    && i + |calls| < |msgs|
    && msgs[i] == AssistantCalls(p.clean(rounds[k].content), calls)
    && forall j: nat | j < |calls| :: msgs[i + 1 + j] == ToolResult(calls[j].id, p.execute(k, j, calls[j]))
  }

  /** The conversation message by message. */
  lemma {:induction false} ConversationSays(p: Proxy, start: seq<Message>, rounds: seq<RoundResult>)
    ensures var msgs := Conversation(p, start, rounds);
            && |msgs| == TurnStart(p, start, rounds, |rounds|) && msgs[..|start|] == start
            && forall k | 0 <= k < |rounds| :: SaysTurn(p, msgs, start, rounds, k)
  {
    hide CallsOf, SaysTurn, Turn;
    assert rounds[..|rounds|] == rounds;
    if rounds != [] {
      var n := |rounds| - 1;
      var front := rounds[..n];
      ConversationSays(p, start, front);
      assert front[..n] == front;
      var (before, t) := (Conversation(p, start, front), Turn(p, n, rounds[n]));
      TurnSays(p, n, rounds[n]);
      forall k | 0 <= k < n
        ensures SaysTurn(p, before + t, start, rounds, k)
      {
        StillSays(p, before, t, start, front, rounds[n], k);
        assert rounds == front + [rounds[n]];
      }
      NowSays(p, before, start, rounds);
    }
  }

  lemma StillSays(p: Proxy, before: seq<Message>, t: seq<Message>, start: seq<Message>, front: seq<RoundResult>, rr: RoundResult, k: nat)
    requires k < |front| && SaysTurn(p, before, start, front, k)
    ensures SaysTurn(p, before + t, start, front + [rr], k)
  {
    hide CallsOf;
    assert (front + [rr])[..k] == front[..k];
  }

  lemma NowSays(p: Proxy, before: seq<Message>, start: seq<Message>, rounds: seq<RoundResult>)
    requires rounds != [] && |before| == TurnStart(p, start, rounds, |rounds| - 1)
    ensures SaysTurn(p, before + Turn(p, |rounds| - 1, rounds[|rounds| - 1]), start, rounds, |rounds| - 1)
  {
    hide TurnStart, Turn, CallsOf;
    var (n, rr) := (|rounds| - 1, rounds[|rounds| - 1]);
    var (t, all) := (Turn(p, n, rr), before + Turn(p, n, rr));
    StructuredFirst(p, rr);
    TurnSays(p, n, rr);
    assert all[|before|] == t[0];
    forall j: nat | j < |CallsOf(p, rr)|
      ensures all[|before| + 1 + j] == ToolResult(CallsOf(p, rr)[j].id, p.execute(n, j, CallsOf(p, rr)[j]))
    {
      assert all[|before| + 1 + j] == t[1 + j];
    }
  }

  lemma StructuredFirst(p: Proxy, rr: RoundResult)
    ensures CallsOf(p, rr) == if rr.calls != [] then rr.calls else if rr.held != "" then p.parse(rr.held) else []
  {
  }

  lemma TurnSays(p: Proxy, round: nat, rr: RoundResult)
    ensures var (t, calls) := (Turn(p, round, rr), CallsOf(p, rr));
            && |t| == 1 + |calls| && t[0] == AssistantCalls(p.clean(rr.content), calls)
            && forall j: nat | j < |calls| :: t[1 + j] == ToolResult(calls[j].id, p.execute(round, j, calls[j]))
  {
  }

  lemma SentTogether(mid: seq<Event>, after: seq<Event>, t1: string, t2: string, r1: string, r2: string)
    requires SentSince([], mid, t1, r1) && SentSince(mid, after, t2, r2)
    ensures SentSince([], after, t1 + t2, r1 + r2)
  {
    assert ContentOf([]) + t1 + t2 == t1 + t2;
    assert ReasoningOf([]) + r1 + r2 == r1 + r2;
  }
}
