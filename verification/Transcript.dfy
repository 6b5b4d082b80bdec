/** The transcript builder of messaging/transcript.py. Segments live in one append-only list, so
    a segment object is represented by its position there. */
module Transcript {
  import opened Base
  import opened Strings

  datatype Segment =
    | Thinking(parts: seq<string>)
    | Text(parts: seq<string>)
    | ToolCall(toolId: string, name: string)
    | ToolResult(resultId: string, toolName: Option<string>, content: string, isError: bool)
    | Subagent(heading: string, toolCalls: nat, toolsUsed: set<string>, currentTool: Option<(string, string)>)
    | Error(message: string)

  datatype ChunkKind = ThinkingChunk | TextChunk

  /** Parsed events. An absent index is -1, ids are already stripped, `heading` is the short
      title extracted from a Task input, and `namesTask` says whether the lower-cased id contains
      "task". */
  datatype Event =
    | BlockStart(kind: ChunkKind, index: int)
    | Chunk(kind: ChunkKind, index: int, text: string)
    | ChunkStop(kind: ChunkKind, index: int)
    | BlockStop(index: int)
    | ToolUseStart(index: int, id: string, name: string, heading: string)
    | ToolUseStop(index: int)
    | ToolUse(id: string, name: string, heading: string)
    | ResultEvent(id: string, content: string, isError: bool, namesTask: bool)
    | ErrorEvent(message: string)
    | Ignored

  /** One accepted non-empty chunk and the segment it went to. */
  datatype Landing = Landing(kind: ChunkKind, text: string, at: nat)

  /** The transcript's fields, plus two records kept for the theorems only: every chunk landed
      and every subagent ever pushed with its segment. */
  datatype State = State(
    segments: seq<Segment>,
    openThinking: map<int, nat>,
    openText: map<int, nat>,
    openTools: set<int>,
    toolNames: map<string, string>,
    stack: seq<string>,
    stackSegments: seq<nat>,
    landings: seq<Landing>,
    pushes: seq<(string, nat)>)

  const EMPTY := State([], map[], map[], {}, map[], [], [], [], [])

  const SYNTHETIC := "__task_"

  function OpenBlocks(t: State, kind: ChunkKind): map<int, nat> {
    if kind.ThinkingChunk? then t.openThinking else t.openText
  }

  /** Same subagents open. */
  ghost predicate SameStacks(t: State, t': State) {
    t'.stack == t.stack && t'.stackSegments == t.stackSegments && t'.pushes == t.pushes
  }

  function WithOpen(t: State, kind: ChunkKind, open: map<int, nat>): State {
    if kind.ThinkingChunk? then t.(openThinking := open) else t.(openText := open)
  }

  function NewSegment(kind: ChunkKind): Segment {
    if kind.ThinkingChunk? then Thinking([]) else Text([])
  }

  predicate IsOfKind(s: Segment, kind: ChunkKind) {
    if kind.ThinkingChunk? then s.Thinking? else s.Text?
  }

  function Opened(t: State, kind: ChunkKind, index: int): (r: State)
    ensures SameStacks(t, r) && r.toolNames == t.toolNames && r.landings == t.landings
    ensures r.segments == t.segments + [NewSegment(kind)]
  {
    var t' := t.(segments := t.segments + [NewSegment(kind)]);
    if index >= 0 then WithOpen(t', kind, OpenBlocks(t, kind)[index := |t.segments|]) else t'
  }

  /** block_stop closes the first kind of block open at the index: tool, thinking, text. */
  function CloseBlock(t: State, index: int): (r: State)
    ensures SameStacks(t, r) && r.toolNames == t.toolNames && r.landings == t.landings && r.segments == t.segments
  {
    if index in t.openTools then t.(openTools := t.openTools - {index})
    else if index in t.openThinking then
      if index >= 0 then t.(openThinking := t.openThinking - {index}) else t
    else if index in t.openText then
      if index >= 0 then t.(openText := t.openText - {index}) else t
    else t
  }

  /** Where a chunk goes: the segment open at its index, or a new one at the end. */
  function Target(t: State, kind: ChunkKind, index: int): nat {
    if index in OpenBlocks(t, kind) then OpenBlocks(t, kind)[index] else |t.segments|
  }

  function Append(t: State, kind: ChunkKind, at: nat, text: string): (r: State)
    ensures SameStacks(t, r) && r.toolNames == t.toolNames && |r.segments| == |t.segments|
    ensures forall n :: 0 <= n < |t.segments| && t.segments[n].Subagent? ==> r.segments[n] == t.segments[n]
  {
    if text == "" || at >= |t.segments| || !IsOfKind(t.segments[at], kind) then t
    else
      var parts := t.segments[at].parts + [text];
      t.(segments := t.segments[at := if kind.ThinkingChunk? then Thinking(parts) else Text(parts)],
         landings := t.landings + [Landing(kind, text, at)])
  }

  predicate RoughMatch(stackId: string, resultId: string) {
    stackId != "" && resultId != "" && (stackId <= resultId || resultId <= stackId)
  }

  /** Topmost entry that roughly matches, or -1. */
  function TopMatch(stack: seq<string>, id: string): (i: int)
    ensures -1 <= i < |stack|
    ensures i >= 0 ==> RoughMatch(stack[i], id)
    ensures forall j :: i < j < |stack| ==> !RoughMatch(stack[j], id)
  {
    if stack == [] then -1
    else if RoughMatch(stack[|stack| - 1], id) then |stack| - 1
    else TopMatch(stack[..|stack| - 1], id)
  }

  /** What remains of the stack when a result with this id arrives (first rule only). */
  function Popped(stack: seq<string>, id: string): (rest: seq<string>)
    ensures rest <= stack
  {
    if stack == [] then []
    else if id != "" then
      var i := TopMatch(stack, id);
      if i < 0 then stack else stack[..i]
    else if SYNTHETIC <= stack[|stack| - 1] then stack[..|stack| - 1]
    else stack
  }

  /** With the reconciliation of synthetic ids: an unmatched result that looks like a Task, and
      is not known as another tool, closes a synthetic top entry. */
  function AfterResult(t: State, e: Event): (rest: seq<string>)
    requires e.ResultEvent?
    ensures rest <= t.stack
  {
    var rest := Popped(t.stack, e.id);
    var known := e.id in t.toolNames && t.toolNames[e.id] != "Task";
    if rest == t.stack && rest != [] && e.id != "" && SYNTHETIC <= rest[|rest| - 1] && !known && e.namesTask
    then Popped(rest, "") else rest
  }

  /** Ids the provider omitted are replaced by a marker carrying the new depth. */
  function StackKey(id: string, depth: nat): (key: string)
    ensures key != ""
    ensures id != "" ==> key == id
    ensures id == "" ==> SYNTHETIC <= key
  {
    if id == "" then SYNTHETIC + NatText(depth) else id
  }

  function Push(t: State, id: string, heading: string): State {
    var key := StackKey(id, |t.stack| + 1);
    t.(segments := t.segments + [Subagent(if heading == "" then "Subagent" else heading, 0, {}, None)],
       stack := t.stack + [key],
       stackSegments := t.stackSegments + [|t.segments|],
       pushes := t.pushes + [(key, |t.segments|)])
  }

  function CallTool(t: State, id: string, name: string): (r: State)
    ensures SameStacks(t, r) && r.toolNames == t.toolNames && r.landings == t.landings
  {
    if t.stack != [] && t.stackSegments != [] then
      var at := t.stackSegments[|t.stackSegments| - 1];
      if at < |t.segments| && t.segments[at].Subagent? then
        var s := t.segments[at];
        t.(segments := t.segments[at := Subagent(s.heading, s.toolCalls + 1, s.toolsUsed + {name}, Some((id, name)))])
      else t
    else t.(segments := t.segments + [ToolCall(id, name)])
  }

  function Named(t: State, id: string, name: string): State {
    if id == "" then t else t.(toolNames := t.toolNames[id := name])
  }

  function ToolName(name: string): string {
    if name == "" then "tool" else name
  }

  function Apply(t: State, e: Event, showResults: bool): State {
    match e
    case BlockStart(kind, index) =>
      if t.stack != [] then t
      else Opened(if index >= 0 then CloseBlock(t, index) else t, kind, index)
    case Chunk(kind, index, text) =>
      if t.stack != [] then t
      else
        var at := Target(t, kind, index);
        Append(if at == |t.segments| then Opened(t, kind, index) else t, kind, at, text)
    case ChunkStop(kind, index) =>
      if index >= 0 then WithOpen(t, kind, OpenBlocks(t, kind) - {index}) else t
    case BlockStop(index) => CloseBlock(t, index)
    case ToolUseStart(index, id, rawName, heading) =>
      var name := ToolName(rawName);
      var t1 := Named(if index >= 0 then CloseBlock(t, index) else t, id, name);
      if name == "Task" then Push(t1, id, heading)
      else
        var t2 := CallTool(t1, id, name);
        if index >= 0 then t2.(openTools := t2.openTools + {index}) else t2
    case ToolUseStop(index) => t.(openTools := t.openTools - {index})
    case ToolUse(id, rawName, heading) =>
      var name := ToolName(rawName);
      var t1 := Named(t, id, name);
      if name == "Task" then Push(t1, id, heading) else CallTool(t1, id, name)
    case ResultEvent(id, content, isError, _) =>
      var rest := AfterResult(t, e);
      var known := if id in t.toolNames then Some(t.toolNames[id]) else None;
      var t1 := if |rest| > |t.stackSegments| then t
                else t.(stack := rest, stackSegments := t.stackSegments[..|rest|]);
      if showResults then t1.(segments := t1.segments + [ToolResult(id, known, content, isError)]) else t1
    case ErrorEvent(message) =>
      t.(segments := t.segments + [Error(if message == "" then "Unknown error" else message)])
    case Ignored => t
  }

  function Run(events: seq<Event>, showResults: bool): State {
    if events == [] then EMPTY
    else Apply(Run(events[..|events| - 1], showResults), events[|events| - 1], showResults)
  }

  // The subagent stack.

  /** Subagents without id that are open together have different keys. */
  lemma SyntheticKeysDiffer(a: nat, b: nat)
    requires a != b
    ensures StackKey("", a) != StackKey("", b)
  {
    if StackKey("", a) == StackKey("", b) {
      assert NatText(a) == StackKey("", a)[|SYNTHETIC|..] == NatText(b);
      NatTextInjective(a, b);
    }
  }

  /** A pop leaves a prefix, and reports success exactly when it shrank. */
  lemma PopShrinksIff(stack: seq<string>, id: string)
    ensures Popped(stack, id) <= stack
    ensures Popped(stack, id) != stack <==>
              stack != [] && if id != "" then (exists i :: 0 <= i < |stack| && RoughMatch(stack[i], id))
                             else SYNTHETIC <= stack[|stack| - 1]
  {
    if stack != [] && id != "" {
      var i := TopMatch(stack, id);
      if i >= 0 {
        assert |stack[..i]| < |stack|;
      }
    }
  }

  /** When the top entry matches, the general scan pops exactly that entry. */
  lemma FastPathAgrees(stack: seq<string>, id: string)
    requires stack != [] && id != "" && RoughMatch(stack[|stack| - 1], id)
    ensures Popped(stack, id) == stack[..|stack| - 1]
  {
  }

  /** Both stacks have one entry per open subagent, pushed together, in opening order. */
  ghost predicate StacksAgree(t: State) {
    && |t.stack| == |t.stackSegments|
    && (forall i :: 0 <= i < |t.stack| ==> t.stack[i] != "" && (t.stack[i], t.stackSegments[i]) in t.pushes)
    && (forall i, j :: 0 <= i < j < |t.stackSegments| ==> t.stackSegments[i] < t.stackSegments[j])
    && (forall p :: p in t.pushes ==> p.1 < |t.segments| && t.segments[p.1].Subagent?)
    && (forall i, j :: 0 <= i < j < |t.pushes| ==> t.pushes[i].1 < t.pushes[j].1)
  }

  /** Texts that landed at a position, in arrival order. */
  function TextsAt(landings: seq<Landing>, at: nat): seq<string> {
    if landings == [] then []
    else
      var last := landings[|landings| - 1];
      TextsAt(landings[..|landings| - 1], at) + if last.at == at then [last.text] else []
  }

  /** A text or thinking segment holds exactly the chunks that landed at its position. */
  ghost predicate Holds(s: Segment, landings: seq<Landing>, at: nat) {
    TextsAt(landings, at) == if s.Thinking? || s.Text? then s.parts else []
  }

  ghost predicate AllHold(t: State) {
    && (forall at :: 0 <= at < |t.segments| ==> Holds(t.segments[at], t.landings, at))
    && (forall n :: 0 <= n < |t.landings| ==>
          t.landings[n].at < |t.segments| && IsOfKind(t.segments[t.landings[n].at], t.landings[n].kind))
  }

  ghost predicate OpenKinds(t: State) {
    && (forall i :: i in t.openThinking ==> t.openThinking[i] < |t.segments| && t.segments[t.openThinking[i]].Thinking?)
    && (forall i :: i in t.openText ==> t.openText[i] < |t.segments| && t.segments[t.openText[i]].Text?)
  }

  ghost predicate LandingsAgree(t: State) {
    AllHold(t) && OpenKinds(t)
  }

  lemma {:induction false} NothingAtEnd(landings: seq<Landing>, at: nat)
    requires forall n :: 0 <= n < |landings| ==> landings[n].at != at
    ensures TextsAt(landings, at) == []
  {
    if landings != [] {
      NothingAtEnd(landings[..|landings| - 1], at);
    }
  }

  lemma LandingAppended(landings: seq<Landing>, l: Landing, at: nat)
    ensures TextsAt(landings + [l], at) == TextsAt(landings, at) + if l.at == at then [l.text] else []
  {
    assert (landings + [l])[..|landings|] == landings;
  }

  /** Adding a segment at the end disturbs nothing. */
  lemma SegmentAdded(t: State, s: Segment)
    requires LandingsAgree(t) && (s.Thinking? || s.Text? ==> s.parts == [])
    ensures LandingsAgree(t.(segments := t.segments + [s]))
  {
    var t' := t.(segments := t.segments + [s]);
    assert forall n :: 0 <= n < |t.segments| ==> t'.segments[n] == t.segments[n];
    NothingAtEnd(t.landings, |t.segments|);
    forall at | 0 <= at < |t'.segments| ensures Holds(t'.segments[at], t'.landings, at) {
      if at < |t.segments| {
        assert Holds(t.segments[at], t.landings, at);
      }
    }
  }

  lemma ChunkLands(t: State, kind: ChunkKind, at: nat, text: string)
    requires LandingsAgree(t) && at < |t.segments| && IsOfKind(t.segments[at], kind)
    ensures LandingsAgree(Append(t, kind, at, text))
  {
    var t' := Append(t, kind, at, text);
    if text != "" {
      forall p | 0 <= p < |t'.segments| ensures Holds(t'.segments[p], t'.landings, p) {
        assert Holds(t.segments[p], t.landings, p);
        LandingAppended(t.landings, Landing(kind, text, at), p);
      }
    }
  }

  /** Rewriting a subagent segment in place disturbs nothing either. */
  lemma SubagentRewritten(t: State, at: nat, s: Segment)
    requires LandingsAgree(t) && at < |t.segments| && t.segments[at].Subagent? && s.Subagent?
    ensures LandingsAgree(t.(segments := t.segments[at := s]))
  {
    var t' := t.(segments := t.segments[at := s]);
    forall p | 0 <= p < |t'.segments| ensures Holds(t'.segments[p], t'.landings, p) {
      assert Holds(t.segments[p], t.landings, p);
    }
  }

  /** Subagents stay where they are. */
  lemma StacksKept(t: State, t': State)
    requires StacksAgree(t) && SameStacks(t, t') && |t.segments| <= |t'.segments|
    requires forall n :: 0 <= n < |t.segments| && t.segments[n].Subagent? ==> t'.segments[n].Subagent?
    ensures StacksAgree(t')
  {
  }

  lemma ToolCalled(t: State, id: string, name: string)
    requires LandingsAgree(t) && StacksAgree(t)
    ensures LandingsAgree(CallTool(t, id, name)) && StacksAgree(CallTool(t, id, name))
  {
    var t' := CallTool(t, id, name);
    StacksKept(t, t');
    if t.stack != [] {
      var at := t.stackSegments[|t.stackSegments| - 1];
      if at < |t.segments| && t.segments[at].Subagent? {
        SubagentRewritten(t, at, t'.segments[at]);
      }
    } else {
      SegmentAdded(t, ToolCall(id, name));
    }
  }

  lemma OpenedAgrees(t: State, kind: ChunkKind, index: int)
    requires LandingsAgree(t) && StacksAgree(t)
    ensures LandingsAgree(Opened(t, kind, index)) && StacksAgree(Opened(t, kind, index))
  {
    SegmentAdded(t, NewSegment(kind));
    StacksKept(t, Opened(t, kind, index));
  }

  lemma ClosedAgrees(t: State, index: int)
    requires LandingsAgree(t) && StacksAgree(t)
    ensures LandingsAgree(CloseBlock(t, index)) && StacksAgree(CloseBlock(t, index))
  {
    StacksKept(t, CloseBlock(t, index));
  }

  lemma ChunkAgrees(t: State, kind: ChunkKind, index: int, text: string)
    requires LandingsAgree(t) && StacksAgree(t)
    ensures var t' := Apply(t, Chunk(kind, index, text), true);
            LandingsAgree(t') && StacksAgree(t')
  {
    if t.stack == [] {
      var at := Target(t, kind, index);
      var t1 := if at == |t.segments| then Opened(t, kind, index) else t;
      OpenedAgrees(t, kind, index);
      TargetFits(t, kind, index);
      LandedAgrees(t1, kind, at, text);
    }
  }

  lemma TargetFits(t: State, kind: ChunkKind, index: int)
    requires OpenKinds(t)
    ensures var at := Target(t, kind, index);
            var t1 := if at == |t.segments| then Opened(t, kind, index) else t;
            at < |t1.segments| && IsOfKind(t1.segments[at], kind)
  {
  }

  lemma LandedAgrees(t: State, kind: ChunkKind, at: nat, text: string)
    requires LandingsAgree(t) && StacksAgree(t) && at < |t.segments| && IsOfKind(t.segments[at], kind)
    ensures LandingsAgree(Append(t, kind, at, text)) && StacksAgree(Append(t, kind, at, text))
  {
    ChunkLands(t, kind, at, text);
    StacksKept(t, Append(t, kind, at, text));
  }

  lemma PushedStacks(t: State, id: string, heading: string)
    requires StacksAgree(t)
    ensures StacksAgree(Push(t, id, heading))
  {
    var t' := Push(t, id, heading);
    assert forall i :: 0 <= i < |t.stack| ==> (t'.stack[i], t'.stackSegments[i]) == (t.stack[i], t.stackSegments[i]);
    forall i | 0 <= i < |t.stack|
      ensures t.stackSegments[i] < |t.segments|
    {
      assert (t.stack[i], t.stackSegments[i]) in t.pushes;
    }
    forall p | p in t'.pushes
      ensures p.1 < |t'.segments| && t'.segments[p.1].Subagent?
    {
      assert p in t.pushes || p == t'.pushes[|t.pushes|];
    }
    assert forall i :: 0 <= i < |t.pushes| ==> t.pushes[i] in t.pushes;
    assert t'.pushes[|t.pushes|] in t'.pushes;
  }

  /** The named tool either opens a subagent or is recorded as a call. */
  lemma ToolAgrees(t: State, id: string, name: string, heading: string)
    requires LandingsAgree(t) && StacksAgree(t)
    ensures var t1 := Named(t, id, name);
            var t' := if name == "Task" then Push(t1, id, heading) else CallTool(t1, id, name);
            LandingsAgree(t') && StacksAgree(t') && t'.landings == t.landings
  {
    var t1 := Named(t, id, name);
    StacksKept(t, t1);
    assert LandingsAgree(t1);
    if name == "Task" {
      PushedStacks(t1, id, heading);
      SegmentAdded(t1, Subagent(if heading == "" then "Subagent" else heading, 0, {}, None));
    } else {
      ToolCalled(t1, id, name);
    }
  }

  lemma ResultAgrees(t: State, e: Event, showResults: bool)
    requires LandingsAgree(t) && StacksAgree(t) && e.ResultEvent?
    ensures LandingsAgree(Apply(t, e, showResults)) && StacksAgree(Apply(t, e, showResults))
    ensures Apply(t, e, showResults).landings == t.landings
  {
    var rest := AfterResult(t, e);
    var t1 := t.(stack := rest, stackSegments := t.stackSegments[..|rest|]);
    var known := if e.id in t.toolNames then Some(t.toolNames[e.id]) else None;
    SegmentAdded(t1, ToolResult(e.id, known, e.content, e.isError));
  }

  lemma BlockAgrees(t: State, e: Event, showResults: bool)
    requires LandingsAgree(t) && StacksAgree(t)
    requires e.BlockStart? || e.ChunkStop? || e.BlockStop? || e.ToolUseStop?
    ensures LandingsAgree(Apply(t, e, showResults)) && StacksAgree(Apply(t, e, showResults))
    ensures Apply(t, e, showResults).landings == t.landings
  {
    match e
    case BlockStart(kind, index) =>
      ClosedAgrees(t, index);
      OpenedAgrees(if index >= 0 then CloseBlock(t, index) else t, kind, index);
    case BlockStop(index) => ClosedAgrees(t, index);
    case _ => StacksKept(t, Apply(t, e, showResults));
  }

  lemma ToolUseAgrees(t: State, e: Event, showResults: bool)
    requires LandingsAgree(t) && StacksAgree(t)
    requires e.ToolUseStart? || e.ToolUse?
    ensures LandingsAgree(Apply(t, e, showResults)) && StacksAgree(Apply(t, e, showResults))
    ensures Apply(t, e, showResults).landings == t.landings
  {
    if e.ToolUseStart? {
      ClosedAgrees(t, e.index);
    }
    var t0 := if e.ToolUseStart? && e.index >= 0 then CloseBlock(t, e.index) else t;
    ToolAgrees(t0, e.id, ToolName(e.name), e.heading);
  }

  lemma StepAgrees(t: State, e: Event, showResults: bool)
    requires LandingsAgree(t) && StacksAgree(t)
    ensures LandingsAgree(Apply(t, e, showResults)) && StacksAgree(Apply(t, e, showResults))
    ensures !e.Chunk? ==> Apply(t, e, showResults).landings == t.landings
  {
    match e
    case Chunk(kind, index, text) => ChunkAgrees(t, kind, index, text);
    case ToolUseStart(_, _, _, _) => ToolUseAgrees(t, e, showResults);
    case ToolUse(_, _, _) => ToolUseAgrees(t, e, showResults);
    case ResultEvent(_, _, _, _) => ResultAgrees(t, e, showResults);
    case ErrorEvent(message) =>
      SegmentAdded(t, Error(if message == "" then "Unknown error" else message));
    case Ignored =>
    case _ => BlockAgrees(t, e, showResults);
  }

  /** The chunks a run must keep: the non-empty ones that arrive at subagent depth 0. */
  function Kept(events: seq<Event>, showResults: bool): seq<(ChunkKind, string)> {
    if events == [] then []
    else
      var before, e := events[..|events| - 1], events[|events| - 1];
      Kept(before, showResults)
      + if e.Chunk? && e.text != "" && Run(before, showResults).stack == [] then [(e.kind, e.text)] else []
  }

  /** A chunk is dropped exactly when it is empty or a subagent is open; otherwise it lands in
      one segment of its kind. No other event lands anything. */
  lemma ChunkFate(t: State, e: Event, showResults: bool)
    requires LandingsAgree(t) && StacksAgree(t)
    ensures Apply(t, e, showResults).landings
         == t.landings + if e.Chunk? && e.text != "" && t.stack == []
                         then [Landing(e.kind, e.text, Target(t, e.kind, e.index))] else []
  {
    if !e.Chunk? {
      StepAgrees(t, e, showResults);
    }
  }

  /** Over every run: both stacks agree, each kept chunk landed in exactly one segment of its
      own kind, in arrival order, and nothing else did. */
  lemma {:induction false} RunsAgree(events: seq<Event>, showResults: bool)
    ensures StacksAgree(Run(events, showResults)) && LandingsAgree(Run(events, showResults))
    ensures |Run(events, showResults).landings| == |Kept(events, showResults)|
    ensures forall n :: 0 <= n < |Kept(events, showResults)| ==>
              var l := Run(events, showResults).landings[n]; (l.kind, l.text) == Kept(events, showResults)[n]
  {
    if events != [] {
      var before, e := events[..|events| - 1], events[|events| - 1];
      RunsAgree(before, showResults);
      StepAgrees(Run(before, showResults), e, showResults);
      ChunkFate(Run(before, showResults), e, showResults);
    }
  }

  /** No segment is ever removed. */
  lemma SegmentsGrow(t: State, e: Event, showResults: bool)
    ensures |t.segments| <= |Apply(t, e, showResults).segments|
    ensures (e.Chunk? || e.BlockStart?) && t.stack == [] && (e.Chunk? ==> e.index !in OpenBlocks(t, e.kind)) ==>
              |t.segments| < |Apply(t, e, showResults).segments|
  {
    match e
    case ToolUseStart(i, id, name, heading) => ToolGrows(if i >= 0
        then CloseBlock(t, i) else t, id, ToolName(name), heading);
    case ToolUse(id, name, heading) => ToolGrows(t, id, ToolName(name), heading);
    case _ =>
  }

  lemma ToolGrows(t: State, id: string, name: string, heading: string)
    ensures |t.segments| <= |CallTool(Named(t, id, name), id, name).segments|
    ensures |t.segments| <= |Push(Named(t, id, name), id, heading).segments|
  {
  }

  // Every tool call is counted once.

  /** Tool calls a segment stands for. */
  function CallsIn(s: Segment): nat {
    match s
    case ToolCall(_, _) => 1
    case Subagent(_, toolCalls, _, _) => toolCalls
    case _ => 0
  }

  function CallsShown(segments: seq<Segment>): nat {
    if segments == [] then 0 else CallsShown(segments[..|segments| - 1]) + CallsIn(segments[|segments| - 1])
  }

  function ToolEvent(e: Event): nat {
    match e
    case ToolUseStart(_, _, name, _) => if name == "Task" then 0 else 1
    case ToolUse(_, name, _) => if name == "Task" then 0 else 1
    case _ => 0
  }

  function ToolEvents(events: seq<Event>): nat {
    if events == [] then 0 else ToolEvents(events[..|events| - 1]) + ToolEvent(events[|events| - 1])
  }

  lemma ShownAdded(segments: seq<Segment>, s: Segment)
    ensures CallsShown(segments + [s]) == CallsShown(segments) + CallsIn(s)
  {
    assert (segments + [s])[..|segments|] == segments;
  }

  lemma {:induction false} ShownRewritten(segments: seq<Segment>, at: nat, s: Segment)
    requires at < |segments|
    ensures CallsShown(segments[at := s]) == CallsShown(segments) - CallsIn(segments[at]) + CallsIn(s)
  {
    var n := |segments| - 1;
    if at < n {
      ShownRewritten(segments[..n], at, s);
      assert segments[at := s][..n] == segments[..n][at := s];
    } else {
      assert segments[at := s][..n] == segments[..n];
    }
  }

  lemma ToolShown(t: State, id: string, name: string)
    requires |t.stack| == |t.stackSegments|
    requires forall i :: 0 <= i < |t.stack| ==>
              t.stackSegments[i] < |t.segments| && t.segments[t.stackSegments[i]].Subagent?
    ensures CallsShown(CallTool(t, id, name).segments) == CallsShown(t.segments) + 1
  {
    if t.stack != [] {
      var at := t.stackSegments[|t.stack| - 1];
      ShownRewritten(t.segments, at, CallTool(t, id, name).segments[at]);
    } else {
      ShownAdded(t.segments, ToolCall(id, name));
    }
  }

  lemma ChunkShown(t: State, kind: ChunkKind, index: int, text: string, showResults: bool)
    ensures CallsShown(Apply(t, Chunk(kind, index, text), showResults).segments) == CallsShown(t.segments)
  {
    if t.stack == [] {
      var at := Target(t, kind, index);
      var t1 := if at == |t.segments| then Opened(t, kind, index) else t;
      ShownAdded(t.segments, NewSegment(kind));
      if text != "" && at < |t1.segments| && IsOfKind(t1.segments[at], kind) {
        ShownRewritten(t1.segments, at, Append(t1, kind, at, text).segments[at]);
      }
    }
  }

  lemma ToolUseShown(t: State, id: string, name: string, heading: string)
    requires |t.stack| == |t.stackSegments|
    requires forall i :: 0 <= i < |t.stack| ==>
              t.stackSegments[i] < |t.segments| && t.segments[t.stackSegments[i]].Subagent?
    ensures var t1 := Named(t, id, name);
            var t' := if name == "Task" then Push(t1, id, heading) else CallTool(t1, id, name);
            CallsShown(t'.segments) == CallsShown(t.segments) + if name == "Task" then 0 else 1
  {
    if name == "Task" {
      ShownAdded(t.segments, Subagent(if heading == "" then "Subagent" else heading, 0, {}, None));
    } else {
      ToolShown(Named(t, id, name), id, name);
    }
  }

  lemma ToolEventShown(t: State, e: Event, showResults: bool)
    requires StacksAgree(t) && (e.ToolUseStart? || e.ToolUse?)
    ensures CallsShown(Apply(t, e, showResults).segments) == CallsShown(t.segments) + ToolEvent(e)
  {
    OpenSubagents(t);
    if e.ToolUseStart? {
      ToolUseShown(if e.index >= 0 then CloseBlock(t, e.index) else t, e.id, ToolName(e.name), e.heading);
    } else {
      ToolUseShown(t, e.id, ToolName(e.name), e.heading);
    }
  }

  lemma OpenSubagents(t: State)
    requires StacksAgree(t)
    ensures forall i :: 0 <= i < |t.stack| ==>
              t.stackSegments[i] < |t.segments| && t.segments[t.stackSegments[i]].Subagent?
  {
    forall i | 0 <= i < |t.stack|
      ensures t.stackSegments[i] < |t.segments| && t.segments[t.stackSegments[i]].Subagent?
    {
      assert (t.stack[i], t.stackSegments[i]) in t.pushes;
    }
  }

  lemma QuietShown(t: State, e: Event, showResults: bool)
    requires !e.Chunk? && !e.ToolUseStart? && !e.ToolUse? && !e.ErrorEvent?
    ensures CallsShown(Apply(t, e, showResults).segments) == CallsShown(t.segments)
  {
    if e.BlockStart? {
      ShownAdded(t.segments, NewSegment(e.kind));
    }
    if e.ResultEvent? {
      var known := if e.id in t.toolNames then Some(t.toolNames[e.id]) else None;
      ShownAdded(t.segments, ToolResult(e.id, known, e.content, e.isError));
    }
  }

  lemma StepShown(t: State, e: Event, showResults: bool)
    requires StacksAgree(t)
    ensures CallsShown(Apply(t, e, showResults).segments) == CallsShown(t.segments) + ToolEvent(e)
  {
    match e
    case Chunk(kind, index, text) => ChunkShown(t, kind, index, text, showResults);
    case ToolUseStart(index, id, name, heading) => ToolEventShown(t, e, showResults);
    case ToolUse(id, name, heading) => ToolEventShown(t, e, showResults);
    case ErrorEvent(message) => ShownAdded(t.segments, Error(if message == "" then "Unknown error" else message));
    case _ => QuietShown(t, e, showResults);
  }

  /** Conservation: over every run each tool use other than Task is counted exactly once, by a
      segment of its own or by the subagent it ran in. */
  lemma {:induction false} RunsCountTools(events: seq<Event>, showResults: bool)
    ensures CallsShown(Run(events, showResults).segments) == ToolEvents(events)
  {
    if events != [] {
      var before := events[..|events| - 1];
      RunsCountTools(before, showResults);
      RunsAgree(before, showResults);
      StepShown(Run(before, showResults), events[|events| - 1], showResults);
    }
  }

  // Ids match "roughly", by prefix. When is that the same as matching exactly?

  /** Topmost entry equal to the id, or -1. */
  function TopExact(stack: seq<string>, id: string): (i: int)
    ensures -1 <= i < |stack|
    ensures i >= 0 ==> stack[i] == id
    ensures forall j :: i < j < |stack| ==> stack[j] != id
  {
    if stack == [] then -1
    else if stack[|stack| - 1] == id then |stack| - 1
    else TopExact(stack[..|stack| - 1], id)
  }

  /** The topmost match is the entry with the id itself iff no other open id above that entry is a
      prefix or an extension of the id. */
  lemma RoughIsExactIff(stack: seq<string>, id: string)
    requires id != "" && forall i :: 0 <= i < |stack| ==> stack[i] != ""
    ensures TopMatch(stack, id) == TopExact(stack, id)
       <==> forall i :: TopExact(stack, id) < i < |stack| ==> !(stack[i] <= id || id <= stack[i])
  {
    var r, x := TopMatch(stack, id), TopExact(stack, id);
    assert x >= 0 ==> RoughMatch(stack[x], id);
    if r > x {
      assert RoughMatch(stack[r], id);
    }
  }

  /** What a result should close: the subagent with its own id, with everything opened inside it,
      and nothing when no open subagent has that id. */
  function ExactCut(stack: seq<string>, id: string): seq<string> {
    if TopExact(stack, id) >= 0 then stack[..TopExact(stack, id)] else stack
  }

  /** The result could answer a Task whose id the stream left out: its id mentions "task" and is
      not known as another tool's. */
  predicate PassesForTask(t: State, e: Event)
    requires e.ResultEvent?
  {
    e.namesTask && (e.id in t.toolNames ==> t.toolNames[e.id] == "Task")
  }

  predicate SyntheticTop(stack: seq<string>) {
    stack != [] && SYNTHETIC <= stack[|stack| - 1]
  }

  /** The exact condition for a whole result event. It closes what it should iff nothing is open;
      or it has no id and the innermost subagent has one; or it has an id, no open id above its own
      is a prefix or an extension of it, and, unless its own id is open, it does not pass for the
      result of an innermost subagent without id. */
  lemma ResultIsExactIff(t: State, e: Event)
    requires e.ResultEvent? && forall i :: 0 <= i < |t.stack| ==> t.stack[i] != ""
    ensures AfterResult(t, e) == ExactCut(t.stack, e.id)
       <==> || t.stack == []
            || (e.id == "" && !SyntheticTop(t.stack))
            || (e.id != ""
                && (forall i :: TopExact(t.stack, e.id) < i < |t.stack| ==> !(t.stack[i] <= e.id || e.id <= t.stack[i]))
                && (TopExact(t.stack, e.id) >= 0 || !(SyntheticTop(t.stack) && PassesForTask(t, e))))
  {
    var stack, id := t.stack, e.id;
    if stack != [] && id != "" {
      RoughIsExactIff(stack, id);
      PopLengths(stack, id);
      var rest := Popped(stack, id);
      if TopMatch(stack, id) != TopExact(stack, id) {
        assert AfterResult(t, e) == rest && |rest| != |ExactCut(stack, id)|;
      }
    }
  }

  lemma PopLengths(stack: seq<string>, id: string)
    requires id != "" && stack != [] && forall i :: 0 <= i < |stack| ==> stack[i] != ""
    ensures |Popped(stack, id)| == if TopMatch(stack, id) < 0 then |stack| else TopMatch(stack, id)
    ensures |ExactCut(stack, id)| == if TopExact(stack, id) < 0 then |stack| else TopExact(stack, id)
    ensures TopExact(stack, id) <= TopMatch(stack, id)
  {
    var x := TopExact(stack, id);
    assert x >= 0 ==> RoughMatch(stack[x], id);
  }

  // Otherwise the wrong subagent closes. Four runs, one for each way to fail.

  function Answer(id: string): Event {
    ResultEvent(id, "", false, false)
  }

  /** A result closes an inner subagent instead of the finished outer one. */
  lemma PrefixClosesInner()
    ensures Run([ToolUse("call_10", "Task", ""), ToolUse("call_1", "Task", ""), Answer("call_10")], false).stack
         == ["call_10"]
  {
    var a, b, r := ToolUse("call_10", "Task", ""), ToolUse("call_1", "Task", ""), Answer("call_10");
    RunsOfThree(a, b, r);
    var stack := ["call_10", "call_1"];
    assert "call_1" <= "call_10";
    FastPathAgrees(stack, "call_10");
    assert stack[..1] == ["call_10"];
  }

  /** The result of an ordinary tool closes the running subagent it was called in. */
  lemma PrefixClosesRunning()
    ensures Run([ToolUse("call_1", "Task", ""), ToolUse("call_12", "Bash", ""), Answer("call_12")], false).stack == []
  {
    var a, b, r := ToolUse("call_1", "Task", ""), ToolUse("call_12", "Bash", ""), Answer("call_12");
    RunsOfThree(a, b, r);
    assert "call_1" <= "call_12";
    FastPathAgrees(["call_1"], "call_12");
  }

  /** So does a result without id, when the subagent has none either. */
  lemma MissingIdClosesRunning()
    ensures Run([ToolUse("", "Task", ""), ToolUse("", "Bash", ""), Answer("")], false).stack == []
  {
    RunsOfThree(ToolUse("", "Task", ""), ToolUse("", "Bash", ""), Answer(""));
  }

  /** And so does any unknown id that mentions "task". */
  lemma TaskLikeIdClosesRunning()
    ensures Run([ToolUse("", "Task", ""), Ignored, ResultEvent("task_a", "", false, true)], false).stack == []
  {
    var a, r := ToolUse("", "Task", ""), ResultEvent("task_a", "", false, true);
    RunsOfThree(a, Ignored, r);
    var top := StackKey("", 1);
    assert top[0] == '_' && SyntheticTop([top]);
    assert !RoughMatch(top, "task_a");
    assert TopMatch([top], "task_a") == -1;
    UnnamedToolUse(a);
  }

  lemma UnnamedToolUse(a: Event)
    requires a.ToolUse? && a.id == ""
    ensures Run([a, Ignored], false).toolNames == map[]
  {
    assert [a, Ignored][..1] == [a] && [a][..0] == [];
    assert Run([], false) == EMPTY;
    assert Run([a], false) == Apply(EMPTY, a, false);
  }

  /** The stack after a Task, some event that is no result, and a result. */
  lemma RunsOfThree(a: Event, b: Event, r: Event)
    requires a.ToolUse? && a.name == "Task" && (b.ToolUse? || b.Ignored?) && r.ResultEvent?
    ensures var first := [StackKey(a.id, 1)];
            Run([a, b], false).stack == if TaskId(b).Some? then first + [StackKey(TaskId(b).value, 2)] else first
    ensures Run([a, b, r], false).stack == AfterResult(Run([a, b], false), r)
  {
    assert [] + [a] == [a] && [a] + [b] == [a, b] && [a, b] + [r] == [a, b, r];
    RunStack([], a, false);
    RunStack([a], b, false);
    RunStack([a, b], r, false);
  }

  lemma RunStack(events: seq<Event>, e: Event, showResults: bool)
    ensures var t := Run(events, showResults);
            Run(events + [e], showResults).stack
            == if TaskId(e).Some? then t.stack + [StackKey(TaskId(e).value, |t.stack| + 1)]
               else if e.ResultEvent? then AfterResult(t, e) else t.stack
  {
    assert (events + [e])[..|events|] == events;
    RunLengths(events, showResults);
    StackStep(Run(events, showResults), e, showResults);
  }

  ghost predicate WellBehavedIds(ids: set<string>) {
    && (forall a :: a in ids ==> a != "" && !(SYNTHETIC <= a))
    && (forall a, b :: a in ids && b in ids && a <= b ==> a == b)
  }

  function TaskId(e: Event): Option<string> {
    match e
    case ToolUseStart(_, id, "Task", _) => Some(id)
    case ToolUse(id, "Task", _) => Some(id)
    case _ => None
  }

  ghost predicate UsesIds(events: seq<Event>, ids: set<string>) {
    forall e :: e in events ==>
      && (e.ResultEvent? ==> e.id in ids)
      && (TaskId(e).Some? ==> TaskId(e).value in ids)
  }

  /** The open subagents by exact id: the reference the rough rules are compared with. */
  function ExactStack(events: seq<Event>): seq<string> {
    if events == [] then []
    else
      var open, e := ExactStack(events[..|events| - 1]), events[|events| - 1];
      if TaskId(e).Some? then open + [TaskId(e).value]
      else if e.ResultEvent? then ExactCut(open, e.id)
      else open
  }

  lemma StackStep(t: State, e: Event, showResults: bool)
    requires |t.stack| == |t.stackSegments|
    ensures Apply(t, e, showResults).stack
         == if TaskId(e).Some? then t.stack + [StackKey(TaskId(e).value, |t.stack| + 1)]
            else if e.ResultEvent? then AfterResult(t, e) else t.stack
  {
  }

  lemma ExactResult(t: State, e: Event, ids: set<string>)
    requires WellBehavedIds(ids) && e.ResultEvent? && e.id in ids
    requires forall i :: 0 <= i < |t.stack| ==> t.stack[i] in ids
    ensures AfterResult(t, e) == ExactCut(t.stack, e.id)
  {
    ResultIsExactIff(t, e);
  }

  lemma RunLengths(events: seq<Event>, showResults: bool)
    ensures |Run(events, showResults).stack| == |Run(events, showResults).stackSegments|
  {
    RunsAgree(events, showResults);
  }

  /** With ids that are never prefixes of one another, every run tracks exactly the open Tasks. */
  lemma {:induction false} PrefixFreeRunsAreExact(events: seq<Event>, showResults: bool, ids: set<string>)
    requires WellBehavedIds(ids) && UsesIds(events, ids)
    ensures Run(events, showResults).stack == ExactStack(events)
    ensures forall i :: 0 <= i < |ExactStack(events)| ==> ExactStack(events)[i] in ids
  {
    if events != [] {
      var before, e := events[..|events| - 1], events[|events| - 1];
      assert forall x :: x in before ==> x in events;
      assert e in events;
      PrefixFreeRunsAreExact(before, showResults, ids);
      var t := Run(before, showResults);
      RunLengths(before, showResults);
      StackStep(t, e, showResults);
      if e.ResultEvent? {
        ExactResult(t, e, ids);
      }
    }
  }
}
