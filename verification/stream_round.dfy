/** One streamed round of a backend call: relay what is safe, hold back what may be a textual tool
    call, merge the structured tool-call deltas (internal/toolproxy/stream.go, streamRound). */
module StreamRounds {
  import opened ContentGates
  import opened Sorting

  datatype Option<+T> = None | Some(value: T)

  /** Token counts of one generation, and its decode rate. */
  datatype Usage = Usage(prompt: int, completion: int, total: int, rate: real)

  datatype CallDelta = CallDelta(index: int, id: string, name: string, args: string)

  datatype Choice = Choice(content: string, reasoning: string, reasoningContent: string,
                           calls: seq<CallDelta>, finish: string)

  /** The usage field of a chunk, which a backend may also send as an explicit null. */
  datatype UsageField = Absent | NullUsage | Reported(usage: Usage)

  datatype Chunk = Chunk(choices: seq<Choice>, usage: UsageField, timings: bool)

  /** One line of the event stream, already decoded; whatever is not a well-formed chunk is skipped. */
  datatype Line = Skipped | Done | Data(chunk: Chunk)

  datatype ToolCall = ToolCall(id: string, name: string, args: string)

  datatype Event =
    | Delta(content: string, reasoning: string)
    | Terminal(chunk: Chunk)
    | Stop
    | UsageFrame(total: Usage)
    | ClientCallsFrame(text: string, calls: seq<ToolCall>, summed: Option<Usage>)
    | ErrorFrame(message: string)
    | DoneFrame

  datatype RoundResult = RoundResult(content: string, reasoning: string, calls: seq<ToolCall>, finish: string,
                                     usage: Option<Usage>, terminal: seq<Chunk>, forwarded: bool, held: string)

  /** The client's event stream. */
  class SseOut {
    var events: seq<Event>

    constructor ()
      ensures events == []
    {
      events := [];
    }

    method Raw(e: Event)
      modifies this
      ensures events == old(events) + [e]
    {
      events := events + [e];
    }

    /** Emits one content or reasoning delta; an empty one is not sent. */
    method EmitDelta(content: string, reasoning: string)
      modifies this
      ensures events == old(events) + (if content == "" && reasoning == "" then [] else [Delta(content, reasoning)])
      ensures ContentOf(events) == ContentOf(old(events)) + content
      ensures ReasoningOf(events) == ReasoningOf(old(events)) + reasoning
    {
      if content == "" && reasoning == "" {
        return;
      }
      Raw(Delta(content, reasoning));
    }
  }

  /** All content, and all reasoning, that reached the client as deltas. */
  function ContentOf(events: seq<Event>): string {
    if events == [] then ""
    else
      var e := events[|events| - 1];
      ContentOf(events[..|events| - 1]) + if e.Delta? then e.content else ""
  }

  function ReasoningOf(events: seq<Event>): string {
    if events == [] then ""
    else
      var e := events[|events| - 1];
      ReasoningOf(events[..|events| - 1]) + if e.Delta? then e.reasoning else ""
  }

  predicate OnlyDeltasSince(before: seq<Event>, after: seq<Event>) {
    && |before| <= |after|
    && (forall i | 0 <= i < |before| :: after[i] == before[i])
    && (forall i | |before| <= i < |after| :: after[i].Delta? && (after[i].content != "" || after[i].reasoning != ""))
  }

  /** Nothing is sent that says nothing. */
  lemma NothingSent(events: seq<Event>, text: string, thoughts: string)
    requires SentSince([], events, text, thoughts)
    ensures events == [] <==> text == "" && thoughts == ""
  {
    assert ContentOf([]) + text == text && ReasoningOf([]) + thoughts == thoughts;
    if events != [] {
      var e := events[|events| - 1];
      assert e.content != "" || e.reasoning != "";
    }
  }

  /** The lines alone decide the round. */
  lemma RoundIsFunctional(a: RoundResult, b: RoundResult, lines: seq<Line>, newId: int -> string)
    requires IsRound(a, lines, newId) && IsRound(b, lines, newId)
    ensures a == b
  {
    hide TextOf, ThoughtsOf, LastFinish, LastUsage, TerminalsOf, AreCalls;
    CallsAreFunctional(a.calls, b.calls, CallDeltasOf(ChoicesOf(Chunks(lines))), newId);
    assert a.held == b.held;
  }

  /** Since the given events, the client was sent exactly this text and this reasoning. */
  ghost predicate SentSince(before: seq<Event>, after: seq<Event>, text: string, thoughts: string) {
    && ContentOf(after) == ContentOf(before) + text
    && ReasoningOf(after) == ReasoningOf(before) + thoughts
    && OnlyDeltasSince(before, after)
  }

  method SendMore(out: SseOut, content: string, reasoning: string, ghost before: seq<Event>, ghost text: string, ghost thoughts: string)
    requires SentSince(before, out.events, text, thoughts)
    modifies out
    ensures SentSince(before, out.events, text + content, thoughts + reasoning)
  {
    ghost var c, r := ContentOf(before), ReasoningOf(before);
    assert c + text + content == c + (text + content);
    assert r + thoughts + reasoning == r + (thoughts + reasoning);
    out.EmitDelta(content, reasoning);
  }

  // ----- what a stream of lines says ----------------------------------------------------

  /** The chunks before the end marker. */
  function Chunks(lines: seq<Line>): seq<Chunk> {
    if lines == [] || lines[0].Done? then []
    else (if lines[0].Data? then [lines[0].chunk] else []) + Chunks(lines[1..])
  }

  function ChoicesOf(chunks: seq<Chunk>): seq<Choice> {
    if chunks == [] then [] else ChoicesOf(chunks[..|chunks| - 1]) + chunks[|chunks| - 1].choices
  }

  function CallDeltasOf(choices: seq<Choice>): seq<CallDelta> {
    if choices == [] then [] else CallDeltasOf(choices[..|choices| - 1]) + choices[|choices| - 1].calls
  }

  function TextOf(choices: seq<Choice>): string {
    if choices == [] then "" else TextOf(choices[..|choices| - 1]) + choices[|choices| - 1].content
  }

  function Thought(c: Choice): string {
    if c.reasoning == "" then c.reasoningContent else c.reasoning
  }

  function ThoughtsOf(choices: seq<Choice>): string {
    if choices == [] then "" else ThoughtsOf(choices[..|choices| - 1]) + Thought(choices[|choices| - 1])
  }

  function LastFinish(choices: seq<Choice>): string {
    if choices == [] then ""
    else if choices[|choices| - 1].finish != "" then choices[|choices| - 1].finish
    else LastFinish(choices[..|choices| - 1])
  }

  function LastUsage(chunks: seq<Chunk>): Option<Usage> {
    if chunks == [] then None
    else if chunks[|chunks| - 1].usage.Reported? then Some(chunks[|chunks| - 1].usage.usage)
    else LastUsage(chunks[..|chunks| - 1])
  }

  predicate IsTerminal(ch: Chunk) {
    ch.usage.Reported? || ch.timings || LastFinish(ch.choices) != ""
  }

  /** A chunk with its already relayed payload removed. */
  function Stripped(ch: Chunk): Chunk {
    ch.(choices := seq(|ch.choices|, i requires 0 <= i < |ch.choices| => Choice("", "", "", [], ch.choices[i].finish)))
  }

  function TerminalsOf(chunks: seq<Chunk>): seq<Chunk> {
    if chunks == [] then []
    else
      var ch := chunks[|chunks| - 1];
      TerminalsOf(chunks[..|chunks| - 1]) + if IsTerminal(ch) then [Stripped(ch)] else []
  }

  function Ends(): Chunk -> bool {
    (ch: Chunk) => ch.timings || ch.usage.Reported? || exists c :: c in ch.choices && c.finish != ""
  }

  function WithoutPayload(): Chunk -> Chunk {
    (ch: Chunk) => Stripped(ch)
  }

  lemma {:induction false} FinishIsThere(choices: seq<Choice>)
    ensures LastFinish(choices) != "" <==> exists c :: c in choices && c.finish != ""
    ensures forall k | 0 <= k < |choices| && choices[k].finish != "" && (forall j | k < j < |choices| :: choices[j].finish == "") ::
              LastFinish(choices) == choices[k].finish
  {
    if choices != [] {
      var n := |choices| - 1;
      FinishIsThere(choices[..n]);
      assert choices == choices[..n] + [choices[n]];
      if choices[n].finish == "" {
        forall k | 0 <= k < n && choices[k].finish != "" && (forall j | k < j < |choices| :: choices[j].finish == "")
          ensures LastFinish(choices) == choices[k].finish
        {
          assert forall j | k < j < n :: choices[..n][j].finish == "";
          assert choices[..n][k] == choices[k];
        }
      }
    }
  }

  /** Kept for the end, in order: the chunks with timings, with usage, or with a reason to finish. */
  lemma {:induction false} TerminalsInOrder(chunks: seq<Chunk>)
    ensures Filtered(chunks, Ends(), WithoutPayload(), TerminalsOf(chunks))
  {
    hide Filtered, Stripped, LastFinish;
    if chunks == [] {
      NothingFiltered(Ends(), WithoutPayload());
    } else {
      var (front, ch) := (chunks[..|chunks| - 1], chunks[|chunks| - 1]);
      TerminalsInOrder(front);
      FinishIsThere(ch.choices);
      FilterOneMore(front, Ends(), WithoutPayload(), TerminalsOf(front), ch);
      assert chunks == front + [ch];
      assert TerminalsOf(front) + [] == TerminalsOf(front);
    }
  }

  /** The usage of a round is the last one reported. */
  lemma {:induction false} LastUsageSays(chunks: seq<Chunk>)
    ensures LastUsage(chunks).Some? <==> exists k :: 0 <= k < |chunks| && chunks[k].usage.Reported?
    ensures forall k | 0 <= k < |chunks| && chunks[k].usage.Reported? && (forall j | k < j < |chunks| :: !chunks[j].usage.Reported?) ::
              LastUsage(chunks) == Some(chunks[k].usage.usage)
  {
    if chunks != [] {
      var n := |chunks| - 1;
      LastUsageSays(chunks[..n]);
      if !chunks[n].usage.Reported? {
        if k :| 0 <= k < |chunks| && chunks[k].usage.Reported? {
          assert chunks[..n][k].usage.Reported?;
        }
        forall k | 0 <= k < n && chunks[k].usage.Reported? && (forall j | k < j < |chunks| :: !chunks[j].usage.Reported?)
          ensures LastUsage(chunks) == Some(chunks[k].usage.usage)
        {
          assert forall j | k < j < n :: !chunks[..n][j].usage.Reported?;
          assert chunks[..n][k] == chunks[k];
        }
      }
    }
  }

  /** A backend that names its reasoning in one way only has all of it relayed, in order. */
  lemma {:induction false} EitherNameIsRelayed(choices: seq<Choice>)
    ensures (forall k | 0 <= k < |choices| :: choices[k].reasoning == "") ==>
              ThoughtsOf(choices) == Concat(seq(|choices|, i requires 0 <= i < |choices| => choices[i].reasoningContent))
    ensures (forall k | 0 <= k < |choices| :: choices[k].reasoningContent == "") ==>
              ThoughtsOf(choices) == Concat(seq(|choices|, i requires 0 <= i < |choices| => choices[i].reasoning))
  {
    if choices != [] {
      var n := |choices| - 1;
      var front := choices[..n];
      EitherNameIsRelayed(front);
      var (a, b) := (seq(|choices|, i requires 0 <= i < |choices| => choices[i].reasoningContent),
                     seq(|choices|, i requires 0 <= i < |choices| => choices[i].reasoning));
      assert a[..n] == seq(|front|, i requires 0 <= i < |front| => front[i].reasoningContent);
      assert b[..n] == seq(|front|, i requires 0 <= i < |front| => front[i].reasoning);
      if forall k | 0 <= k < |choices| :: choices[k].reasoning == "" {
        assert forall k | 0 <= k < n :: front[k] == choices[k];
      }
      if forall k | 0 <= k < |choices| :: choices[k].reasoningContent == "" {
        assert forall k | 0 <= k < n :: front[k] == choices[k];
      }
    }
  }

  // ----- structured tool calls ----------------------------------------------------------

  datatype Partial = Partial(id: string, name: string, args: string)

  /** Some delta is about this index. */
  predicate Mentions(ds: seq<CallDelta>, index: int) {
    exists k :: 0 <= k < |ds| && ds[k].index == index
  }

  /** Everything the deltas of one index say: the last id, the last name, all argument text. */
  function PartialAt(ds: seq<CallDelta>, index: int): Partial {
    if ds == [] then Partial("", "", "")
    else
      var p, d := PartialAt(ds[..|ds| - 1], index), ds[|ds| - 1];
      if d.index != index then p
      else Partial(if d.id != "" then d.id else p.id, if d.name != "" then d.name else p.name, p.args + d.args)
  }

  predicate Blank(s: string) {
    forall c | c in s :: c in {' ', '\t', '\n', '\r'}
  }

  /** The finished calls for the given indices, in that order; a call nobody named is dropped. */
  function Finished(ds: seq<CallDelta>, order: seq<int>, newId: int -> string): seq<ToolCall> {
    if order == [] then []
    else
      var i := order[|order| - 1];
      var p := PartialAt(ds, i);
      Finished(ds, order[..|order| - 1], newId) +
      if p.name == "" then []
      else [ToolCall(if p.id == "" then newId(i) else p.id, p.name, if Blank(p.args) then "{}" else p.args)]
  }

  /** The merged calls: one for each mentioned index that has a name, in ascending order of index. */
  ghost predicate AreCalls(calls: seq<ToolCall>, ds: seq<CallDelta>, newId: int -> string) {
    exists order: seq<int> :: Ascending(order) && Lists(order, ds) && calls == Finished(ds, order, newId)
  }

  ghost predicate Lists(order: seq<int>, ds: seq<CallDelta>) {
    forall i :: i in order <==> Mentions(ds, i)
  }

  /** The deltas alone decide the merged calls. */
  lemma CallsAreFunctional(a: seq<ToolCall>, b: seq<ToolCall>, ds: seq<CallDelta>, newId: int -> string)
    requires AreCalls(a, ds, newId) && AreCalls(b, ds, newId)
    ensures a == b
  {
    var xs :| Ascending(xs) && Lists(xs, ds) && a == Finished(ds, xs, newId);
    var ys :| Ascending(ys) && Lists(ys, ds) && b == Finished(ds, ys, newId);
    AscendingIsUnique(xs, ys);
  }

  ghost predicate Merged(calls: map<int, Partial>, ds: seq<CallDelta>) {
    forall i :: (i in calls <==> Mentions(ds, i)) && (i in calls ==> calls[i] == PartialAt(ds, i))
  }

  lemma {:induction false} NoDeltas(ds: seq<CallDelta>, index: int)
    requires !Mentions(ds, index)
    ensures PartialAt(ds, index) == Partial("", "", "")
  {
    if ds != [] {
      var rest := ds[..|ds| - 1];
      assert Mentions(rest, index) ==> Mentions(ds, index);
      NoDeltas(rest, index);
    }
  }

  /** The deltas about one index, in the order they came. */
  function About(ds: seq<CallDelta>, index: int): seq<CallDelta> {
    if ds == [] then []
    else About(ds[..|ds| - 1], index) + if ds[|ds| - 1].index == index then [ds[|ds| - 1]] else []
  }

  /** One call cut into deltas: its id and name, then its argument text piece by piece. */
  function Cut(index: int, id: string, name: string, pieces: seq<string>): seq<CallDelta> {
    if pieces == [] then [CallDelta(index, id, name, "")]
    else Cut(index, id, name, pieces[..|pieces| - 1]) + [CallDelta(index, "", "", pieces[|pieces| - 1])]
  }

  /** What the deltas of other calls say in between does not matter. */
  lemma {:induction false} OthersDoNotMatter(ds: seq<CallDelta>, index: int)
    ensures PartialAt(ds, index) == PartialAt(About(ds, index), index)
  {
    if ds != [] {
      var (front, d) := (ds[..|ds| - 1], ds[|ds| - 1]);
      OthersDoNotMatter(front, index);
      if d.index == index {
        assert About(ds, index)[..|About(front, index)|] == About(front, index);
      } else {
        assert About(ds, index) == About(front, index);
      }
    }
  }

  lemma {:induction false} CutRejoins(index: int, id: string, name: string, pieces: seq<string>)
    ensures PartialAt(Cut(index, id, name, pieces), index) == Partial(id, name, Concat(pieces))
  {
    if pieces == [] {
      assert Cut(index, id, name, [])[..0] == [];
    } else {
      var front := pieces[..|pieces| - 1];
      CutRejoins(index, id, name, front);
      var ds := Cut(index, id, name, pieces);
      assert ds[..|ds| - 1] == Cut(index, id, name, front);
    }
  }

  /** However a call's deltas are cut and interleaved with those of other calls, merging gives it back. */
  lemma FragmentsRejoin(ds: seq<CallDelta>, index: int, id: string, name: string, pieces: seq<string>)
    requires About(ds, index) == Cut(index, id, name, pieces)
    ensures PartialAt(ds, index) == Partial(id, name, Concat(pieces))
  {
    OthersDoNotMatter(ds, index);
    CutRejoins(index, id, name, pieces);
  }

  /** A call of the round: that of a mentioned index with a name. A missing id is made up, missing arguments are
      an empty object, and everything else is what the deltas say. */
  predicate IsCall(c: ToolCall, ds: seq<CallDelta>, index: int, newId: int -> string) {
    var p := PartialAt(ds, index);
    && Mentions(ds, index) && c.name == p.name != ""
    && (p.id != "" ==> c.id == p.id) && (p.id == "" ==> c.id == newId(index))
    && (!Blank(p.args) ==> c.args == p.args) && (Blank(p.args) ==> c.args == "{}")
  }

  /** The calls are those of these indices, one by one. */
  ghost predicate AreOf(calls: seq<ToolCall>, ds: seq<CallDelta>, newId: int -> string, of: seq<int>) {
    |of| == |calls| && forall q | 0 <= q < |of| :: IsCall(calls[q], ds, of[q], newId)
  }

  /** The calls of a round are those of its named indices, in ascending order of index. */
  lemma CallsExactly(calls: seq<ToolCall>, ds: seq<CallDelta>, newId: int -> string)
    requires AreCalls(calls, ds, newId)
    ensures exists of: seq<int> :: Ascending(of) && AreOf(calls, ds, newId, of) &&
                                   forall i :: i in of <==> Mentions(ds, i) && PartialAt(ds, i).name != ""
  {
    var order :| Ascending(order) && Lists(order, ds) && calls == Finished(ds, order, newId);
    FinishedExactly(ds, order, newId);
    hide AreOf, Finished, Mentions, PartialAt;
    var of: seq<int> :| Ascending(of) && AreOf(calls, ds, newId, of) && forall i :: i in of <==> i in order && PartialAt(ds, i).name != "";
  }

  lemma {:induction false} FinishedExactly(ds: seq<CallDelta>, order: seq<int>, newId: int -> string)
    requires Ascending(order) && forall i | i in order :: Mentions(ds, i)
    ensures exists of: seq<int> :: Ascending(of) && AreOf(Finished(ds, order, newId), ds, newId, of) &&
                                   forall i :: i in of <==> i in order && PartialAt(ds, i).name != ""
  {
    hide Mentions, PartialAt, Blank, IsCall;
    if order == [] {
      var none: seq<int> := [];
      assert Ascending(none) && AreOf(Finished(ds, order, newId), ds, newId, none);
    } else {
      var (front, i) := (order[..|order| - 1], order[|order| - 1]);
      assert order == front + [i];
      FinishedExactly(ds, front, newId);
      var was := Finished(ds, front, newId);
      var of: seq<int> :| Ascending(of) && AreOf(was, ds, newId, of) && forall i :: i in of <==> i in front && PartialAt(ds, i).name != "";
      if PartialAt(ds, i).name == "" {
        assert Finished(ds, order, newId) == was;
      } else {
        OneMoreCall(ds, front, i, newId, of);
      }
    }
  }

  lemma OneMoreCall(ds: seq<CallDelta>, front: seq<int>, i: int, newId: int -> string, of: seq<int>)
    requires Ascending(front + [i]) && Ascending(of) && AreOf(Finished(ds, front, newId), ds, newId, of)
    requires Mentions(ds, i) && PartialAt(ds, i).name != "" && forall x :: x in of <==> x in front && PartialAt(ds, x).name != ""
    ensures Ascending(of + [i]) && AreOf(Finished(ds, front + [i], newId), ds, newId, of + [i])
    ensures forall x :: x in of + [i] <==> x in front + [i] && PartialAt(ds, x).name != ""
  {
    hide Mentions, PartialAt, Blank;
    var all := front + [i];
    assert all[..|front|] == front;
    forall k | 0 <= k < |of|
      ensures of[k] < i
    {
      assert of[k] in front;
      var j :| 0 <= j < |front| && front[j] == of[k];
      assert all[j] < all[|front|];
    }
  }

  lemma MergedStep(calls: map<int, Partial>, ds: seq<CallDelta>, d: CallDelta, merged: map<int, Partial>)
    requires Merged(calls, ds)
    requires var p := if d.index in calls then calls[d.index] else Partial("", "", "");
             merged == calls[d.index := Partial(if d.id != "" then d.id else p.id,
                                                if d.name != "" then d.name else p.name, p.args + d.args)]
    ensures Merged(merged, ds + [d])
  {
    var all := ds + [d];
    assert all[..|all| - 1] == ds;
    assert all[|ds|] == d;
    forall i
      ensures Mentions(all, i) <==> Mentions(ds, i) || i == d.index
    {
      if Mentions(ds, i) {
        var k :| 0 <= k < |ds| && ds[k].index == i;
        assert all[k].index == i;
      }
    }
    if d.index !in calls {
      NoDeltas(ds, d.index);
    }
  }

  method MergeCallDeltas(calls: map<int, Partial>, ghost before: seq<CallDelta>, ds: seq<CallDelta>)
    returns (merged: map<int, Partial>)
    requires Merged(calls, before)
    ensures Merged(merged, before + ds)
  {
    merged := calls;
    assert before + ds[..0] == before;
    for k := 0 to |ds|
      invariant Merged(merged, before + ds[..k])
    {
      var d, was := ds[k], merged;
      assert before + ds[..k + 1] == before + ds[..k] + [d];
      var p := if d.index in was then was[d.index] else Partial("", "", "");
      merged := was[d.index := Partial(if d.id != "" then d.id else p.id,
                                       if d.name != "" then d.name else p.name, p.args + d.args)];
      MergedStep(was, before + ds[..k], d, merged);
    }
    assert ds[..|ds|] == ds;
  }

  method FinishCalls(calls: map<int, Partial>, ghost ds: seq<CallDelta>, newId: int -> string)
    returns (done: seq<ToolCall>)
    requires Merged(calls, ds)
    ensures AreCalls(done, ds, newId)
  {
    var order := SortInts(calls.Keys);
    done := [];
    for k := 0 to |order|
      invariant done == Finished(ds, order[..k], newId)
    {
      var i := order[k];
      assert i in order;
      var p := calls[i];
      assert order[..k + 1][..k] == order[..k];
      if p.name != "" {
        done := done + [ToolCall(if p.id == "" then newId(i) else p.id, p.name, if Blank(p.args) then "{}" else p.args)];
      }
    }
    assert order[..|order|] == order;
  }

  // ----- the round ----------------------------------------------------------------------

  /** What one round amounts to, for a stream of lines. */
  ghost predicate IsRound(rr: RoundResult, lines: seq<Line>, newId: int -> string) {
    var chunks := Chunks(lines);
    var choices := ChoicesOf(chunks);
    && rr.content == TextOf(choices)
    && rr.reasoning == ThoughtsOf(choices)
    && rr.finish == LastFinish(choices)
    && rr.usage == LastUsage(chunks)
    && rr.terminal == TerminalsOf(chunks)
    && AreCalls(rr.calls, CallDeltasOf(choices), newId)
    && (rr.held == "" ==> NoTag(rr.content))
    && (rr.held != "" ==> |rr.held| <= |rr.content| &&
                          rr.held == rr.content[|rr.content| - |rr.held|..] &&
                          FirstOccurrence(rr.content, |rr.content| - |rr.held|))
    && (rr.forwarded <==> Relayed(rr) != "")
  }

  /** The text of the round before its first tag: what the gate lets out. */
  function Relayed(rr: RoundResult): string {
    if |rr.held| <= |rr.content| then rr.content[..|rr.content| - |rr.held|] else ""
  }

  /** The local variables of the round's loop. */
  datatype Progress = Progress(content: string, reasoning: string, finish: string, calls: map<int, Partial>,
                               usage: Option<Usage>, terminal: seq<Chunk>, forwarded: bool)

  ghost predicate TookChoices(p: Progress, done: seq<Choice>) {
    && p.content == TextOf(done)
    && p.reasoning == ThoughtsOf(done)
    && p.finish == LastFinish(done)
    && Merged(p.calls, CallDeltasOf(done))
  }

  ghost predicate TookChunks(p: Progress, seen: seq<Chunk>) {
    && TookChoices(p, ChoicesOf(seen))
    && p.usage == LastUsage(seen)
    && p.terminal == TerminalsOf(seen)
  }

  /** The gate has taken the round's text so far, and what it let through is with the client. */
  ghost predicate Relaying(p: Progress, gate: ContentGate, out: SseOut, before: seq<Event>)
    reads gate, out
  {
    && gate.Valid() && gate.input == p.content
    && (p.forwarded <==> gate.forwarded != "")
    && SentSince(before, out.events, gate.forwarded, p.reasoning)
  }

  /** Takes one choice of a chunk: relay, accumulate, merge. */
  method TakeChoice(out: SseOut, gate: ContentGate, c: Choice, p: Progress, ghost done: seq<Choice>, ghost before: seq<Event>)
    returns (q: Progress)
    requires TookChoices(p, done) && Relaying(p, gate, out, before)
    modifies out, gate
    ensures TookChoices(q, done + [c]) && Relaying(q, gate, out, before)
    ensures q.usage == p.usage && q.terminal == p.terminal
  {
    hide TookChoices, Settled, SentSince;
    q := Accumulate(p, c, done);
    ghost var text := gate.forwarded;
    var fwd := "";
    if c.content != "" {
      fwd := gate.Push(c.content);
    }
    if fwd != "" {
      ForwardedApart(q, done + [c], true);
      q := q.(forwarded := true);
    }
    assert gate.forwarded == text + fwd;
    SendMore(out, fwd, Thought(c), before, text, p.reasoning);
  }

  lemma ForwardedApart(p: Progress, done: seq<Choice>, forwarded: bool)
    ensures TookChoices(p.(forwarded := forwarded), done) <==> TookChoices(p, done)
  {
  }

  /** Appends the texts of one choice, notes how it finished, and merges its call deltas. */
  method Accumulate(p: Progress, c: Choice, ghost done: seq<Choice>) returns (q: Progress)
    requires TookChoices(p, done)
    ensures TookChoices(q, done + [c])
    ensures q.content == p.content + c.content && q.reasoning == p.reasoning + Thought(c)
    ensures q.forwarded == p.forwarded && q.usage == p.usage && q.terminal == p.terminal
  {
    assert (done + [c])[..|done|] == done;
    var r := if c.reasoning == "" then c.reasoningContent else c.reasoning;
    var calls := MergeCallDeltas(p.calls, CallDeltasOf(done), c.calls);
    q := p.(content := p.content + c.content, reasoning := p.reasoning + r,
            finish := if c.finish != "" then c.finish else p.finish, calls := calls);
  }

  /** Takes the choices of a chunk, and says whether one of them finished. */
  method TakeChoices(out: SseOut, gate: ContentGate, choices: seq<Choice>, p: Progress, ghost done: seq<Choice>, ghost before: seq<Event>)
    returns (q: Progress, finished: bool)
    requires TookChoices(p, done) && Relaying(p, gate, out, before)
    modifies out, gate
    ensures TookChoices(q, done + choices) && Relaying(q, gate, out, before)
    ensures q.usage == p.usage && q.terminal == p.terminal
    ensures finished <==> LastFinish(choices) != ""
  {
    hide TookChoices, Relaying;
    q, finished := p, false;
    assert done + choices[..0] == done;
    for j := 0 to |choices|
      invariant TookChoices(q, done + choices[..j]) && Relaying(q, gate, out, before)
      invariant q.usage == p.usage && q.terminal == p.terminal
      invariant finished <==> LastFinish(choices[..j]) != ""
    {
      assert done + choices[..j + 1] == done + choices[..j] + [choices[j]];
      assert choices[..j + 1][..j] == choices[..j];
      q := TakeChoice(out, gate, choices[j], q, done + choices[..j], before);
      finished := finished || choices[j].finish != "";
    }
    assert choices[..|choices|] == choices;
  }

  /** Takes one chunk: its usage, its choices, and whether it is to be replayed at the end. */
  method TakeChunk(out: SseOut, gate: ContentGate, ch: Chunk, p: Progress, ghost seen: seq<Chunk>, ghost before: seq<Event>)
    returns (q: Progress)
    requires TookChunks(p, seen) && Relaying(p, gate, out, before)
    modifies out, gate
    ensures TookChunks(q, seen + [ch]) && Relaying(q, gate, out, before)
  {
    assert (seen + [ch])[..|seen|] == seen;
    q := if ch.usage.Reported? then p.(usage := Some(ch.usage.usage)) else p;
    var isTerminal;
    q, isTerminal := TakeChoices(out, gate, ch.choices, q, ChoicesOf(seen), before);
    isTerminal := isTerminal || ch.usage.Reported?;
    assert TookChoices(q, ChoicesOf(seen + [ch]));
    assert isTerminal || ch.timings <==> IsTerminal(ch);
    if isTerminal || ch.timings {
      q := q.(terminal := q.terminal + [Stripped(ch)]);
    }
    assert q.usage == LastUsage(seen + [ch]);
    assert q.terminal == TerminalsOf(seen + [ch]);
  }

  /** What had reached the client when the stream broke off: a gate's output for the text so far. */
  ghost predicate BrokeOff(before: seq<Event>, after: seq<Event>, lines: seq<Line>) {
    var choices := ChoicesOf(Chunks(lines));
    exists f, p, c, t :: Settled(TextOf(choices), f, p, c, t) && SentSince(before, after, f, ThoughtsOf(choices))
  }

  /** Runs one streamed round, forwarding what is safe as it arrives. What reaches the client is
      exactly the text before the first tag, in order, with all the reasoning; the rest is held. A
      read error before the end marker leaves the round unfinished. */
  method StreamRound(out: SseOut, lines: seq<Line>, broken: bool, newId: int -> string) returns (rr: RoundResult, ok: bool)
    modifies out
    ensures ok <==> !broken || Done in lines
    ensures ok ==> IsRound(rr, lines, newId) && SentSince(old(out.events), out.events, Relayed(rr), rr.reasoning)
    ensures !ok ==> BrokeOff(old(out.events), out.events, lines)
  {
    hide TookChunks, TookChoices, Relaying, IsRound, SentSince;
    ghost var before := out.events;
    var gate, p := StartRound(out);
    ghost var seen: seq<Chunk> := [];
    var k := 0;
    while k < |lines| && !lines[k].Done?
      invariant 0 <= k <= |lines| && Done !in lines[..k]
      invariant Chunks(lines) == seen + Chunks(lines[k..])
      invariant fresh(gate) && TookChunks(p, seen) && Relaying(p, gate, out, before)
    {
      ChunksStep(lines, k);
      if lines[k].Data? {
        p := TakeChunk(out, gate, lines[k].chunk, p, seen, before);
        seen := seen + [lines[k].chunk];
      }
      k := k + 1;
    }
    assert Chunks(lines) == seen;
    if k == |lines| && broken {
      StoppedShort(p, gate, out, before, lines);
      assert lines[..k] == lines;
      rr, ok := RoundResult("", "", [], "", None, [], false, ""), false;
      return;
    }
    ok := true;
    rr := FinishRound(out, gate, p, lines, seen, before, newId);
  }

  lemma StoppedShort(p: Progress, gate: ContentGate, out: SseOut, before: seq<Event>, lines: seq<Line>)
    requires TookChunks(p, Chunks(lines)) && Relaying(p, gate, out, before)
    ensures BrokeOff(before, out.events, lines)
  {
    hide Settled, SentSince;
    assert Settled(p.content, gate.forwarded, gate.pending, gate.capturing, gate.captured);
  }

  /** A fresh gate, and nothing taken yet. */
  method StartRound(out: SseOut) returns (gate: ContentGate, p: Progress)
    ensures fresh(gate) && TookChunks(p, []) && Relaying(p, gate, out, out.events)
  {
    gate := new ContentGate();
    p := Progress("", "", "", map[], None, [], false);
    assert ContentOf(out.events) + "" == ContentOf(out.events) && ReasoningOf(out.events) + "" == ReasoningOf(out.events);
  }

  /** After the last chunk: send what the gate may still send, and put the round together. */
  method FinishRound(out: SseOut, gate: ContentGate, p: Progress, ghost lines: seq<Line>, ghost seen: seq<Chunk>,
                     ghost before: seq<Event>, newId: int -> string)
    returns (rr: RoundResult)
    requires Chunks(lines) == seen && TookChunks(p, seen) && Relaying(p, gate, out, before)
    modifies out
    ensures IsRound(rr, lines, newId)
    ensures SentSince(before, out.events, Relayed(rr), rr.reasoning)
  {
    hide Relaying, SentSince, FirstOccurrence, NoTag;
    var q := Flush(out, gate, p, before);
    var calls := FinishCalls(q.calls, CallDeltasOf(ChoicesOf(seen)), newId);
    rr := RoundResult(q.content, q.reasoning, calls, q.finish, q.usage, q.terminal, q.forwarded, gate.captured);
  }

  lemma ChunksStep(lines: seq<Line>, k: nat)
    requires k < |lines| && !lines[k].Done?
    ensures Chunks(lines[k..]) == (if lines[k].Data? then [lines[k].chunk] else []) + Chunks(lines[k + 1..])
  {
    assert lines[k..][1..] == lines[k + 1..];
  }

  /** At the end of the round, a tag prefix that never completed goes out; captured text is kept. */
  method Flush(out: SseOut, gate: ContentGate, p: Progress, ghost before: seq<Event>) returns (q: Progress)
    requires Relaying(p, gate, out, before)
    modifies out
    ensures q == p.(forwarded := q.forwarded)
    ensures |gate.captured| <= |p.content|
    ensures var text := p.content[..|p.content| - |gate.captured|];
            SentSince(before, out.events, text, p.reasoning) && (q.forwarded <==> text != "")
    ensures |gate.captured| <= |p.content| && gate.captured == p.content[|p.content| - |gate.captured|..]
    ensures if gate.captured == "" then NoTag(p.content) else FirstOccurrence(p.content, |p.content| - |gate.captured|)
  {
    hide Settled, FirstOccurrence, NoTag, SentSince;
    SettledRound(p.content, gate);
    q := p;
    if gate.pending != "" {
      SendMore(out, gate.pending, "", before, gate.forwarded, p.reasoning);
      assert p.reasoning + "" == p.reasoning;
      q := p.(forwarded := true);
    } else {
      assert gate.forwarded + gate.pending == gate.forwarded;
    }
  }

  lemma SettledRound(content: string, gate: ContentGate)
    requires gate.Valid() && gate.input == content
    ensures gate.captured == "" <==> !gate.capturing
    ensures |gate.captured| <= |content|
    ensures gate.forwarded + gate.pending == content[..|content| - |gate.captured|]
    ensures gate.captured == content[|content| - |gate.captured|..]
    ensures gate.capturing ==> FirstOccurrence(content, |content| - |gate.captured|)
    ensures !gate.capturing ==> NoTag(content)
  {
    if gate.capturing {
      assert OccursAt(content, |gate.forwarded|);
    }
  }
}
