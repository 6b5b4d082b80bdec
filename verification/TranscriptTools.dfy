/** What tool events leave in the transcript, read off the events: the segments other than text, in
    order, and what each subagent segment has counted. */
module TranscriptTools {
  import opened Base
  import opened Transcript

  predicate IsTool(e: Event) {
    e.ToolUseStart? || e.ToolUse?
  }

  function ToolId(e: Event): string
    requires IsTool(e)
  {
    e.id
  }

  function NameOf(e: Event): string
    requires IsTool(e)
  {
    ToolName(e.name)
  }

  /** The name under which a tool id was last used. */
  function KnownName(events: seq<Event>, id: string): Option<string> {
    if events == [] then None
    else
      var e := events[|events| - 1];
      if IsTool(e) && ToolId(e) == id && id != "" then Some(NameOf(e)) else KnownName(events[..|events| - 1], id)
  }

  function NewSubagent(heading: string): Segment {
    Subagent(if heading == "" then "Subagent" else heading, 0, {}, None)
  }

  function ToolAdded(e: Event, outside: bool): seq<Segment>
    requires IsTool(e)
  {
    if NameOf(e) == "Task" then [NewSubagent(e.heading)]
    else if outside then [ToolCall(ToolId(e), NameOf(e))]
    else []
  }

  /** The segment that is not text and that the event adds, subagents without their counts. */
  function Added(before: seq<Event>, e: Event, showResults: bool): seq<Segment> {
    if IsTool(e) then ToolAdded(e, Run(before, showResults).stack == [])
    else if e.ResultEvent? then
      if showResults then [ToolResult(e.id, KnownName(before, e.id), e.content, e.isError)] else []
    else if e.ErrorEvent? then [Error(if e.message == "" then "Unknown error" else e.message)]
    else []
  }

  function Expected(events: seq<Event>, showResults: bool): seq<Segment> {
    if events == [] then []
    else
      var before := events[..|events| - 1];
      Expected(before, showResults) + Added(before, events[|events| - 1], showResults)
  }

  function Bare(s: Segment): seq<Segment> {
    match s
    case Thinking(_) => []
    case Text(_) => []
    case Subagent(heading, _, _, _) => [Subagent(heading, 0, {}, None)]
    case _ => [s]
  }

  /** The segments other than text, subagents without their counts. */
  function Skeleton(segments: seq<Segment>): seq<Segment> {
    if segments == [] then [] else Skeleton(segments[..|segments| - 1]) + Bare(segments[|segments| - 1])
  }

  lemma SkeletonAdded(segments: seq<Segment>, s: Segment)
    ensures Skeleton(segments + [s]) == Skeleton(segments) + Bare(s)
  {
    assert (segments + [s])[..|segments|] == segments;
  }

  lemma {:induction false} SkeletonRewritten(segments: seq<Segment>, at: nat, s: Segment)
    requires at < |segments| && Bare(s) == Bare(segments[at])
    ensures Skeleton(segments[at := s]) == Skeleton(segments)
  {
    var n := |segments| - 1;
    if at < n {
      SkeletonRewritten(segments[..n], at, s);
      assert segments[at := s][..n] == segments[..n][at := s];
    } else {
      assert segments[at := s][..n] == segments[..n];
    }
  }

  lemma ChunkSkeleton(t: State, kind: ChunkKind, index: int, text: string, showResults: bool)
    ensures Skeleton(Apply(t, Chunk(kind, index, text), showResults).segments) == Skeleton(t.segments)
  {
    if t.stack == [] {
      var at := Target(t, kind, index);
      var t1 := if at == |t.segments| then Opened(t, kind, index) else t;
      SkeletonAdded(t.segments, NewSegment(kind));
      if text != "" && at < |t1.segments| && IsOfKind(t1.segments[at], kind) {
        SkeletonRewritten(t1.segments, at, Append(t1, kind, at, text).segments[at]);
      }
    }
  }

  lemma CallSkeleton(t: State, id: string, name: string)
    requires |t.stack| == |t.stackSegments|
    requires forall i :: 0 <= i < |t.stack| ==>
              t.stackSegments[i] < |t.segments| && t.segments[t.stackSegments[i]].Subagent?
    ensures Skeleton(CallTool(t, id, name).segments)
         == Skeleton(t.segments) + if t.stack == [] then [ToolCall(id, name)] else []
  {
    if t.stack != [] {
      var at := t.stackSegments[|t.stack| - 1];
      SkeletonRewritten(t.segments, at, CallTool(t, id, name).segments[at]);
    } else {
      SkeletonAdded(t.segments, ToolCall(id, name));
    }
  }

  /** The part of a tool event after the block at its index was closed. */
  function ToolPart(t: State, e: Event): State
    requires IsTool(e)
  {
    var t1 := Named(t, ToolId(e), NameOf(e));
    if NameOf(e) == "Task" then Push(t1, ToolId(e), e.heading) else CallTool(t1, ToolId(e), NameOf(e))
  }

  lemma ToolApplied(t: State, e: Event, showResults: bool)
    requires IsTool(e)
    ensures Apply(t, e, showResults).segments == ToolPart(t, e).segments
    ensures Apply(t, e, showResults).toolNames == Named(t, ToolId(e), NameOf(e)).toolNames
  {
    if e.ToolUseStart? && e.index >= 0 {
      ClosedFirst(t, CloseBlock(t, e.index), e);
    }
  }

  lemma CallSame(t: State, t0: State, id: string, name: string)
    requires SameStacks(t, t0) && t0.segments == t.segments
    ensures CallTool(t0, id, name).segments == CallTool(t, id, name).segments
  {
  }

  /** Closing a block first makes no difference to the segments. */
  lemma ClosedFirst(t: State, t0: State, e: Event)
    requires IsTool(e) && SameStacks(t, t0) && t0.segments == t.segments && t0.toolNames == t.toolNames
    ensures ToolPart(t0, e).segments == ToolPart(t, e).segments && ToolPart(t0, e).toolNames == ToolPart(t, e).toolNames
  {
    var t1, t2 := Named(t0, ToolId(e), NameOf(e)), Named(t, ToolId(e), NameOf(e));
    CallSame(t2, t1, ToolId(e), NameOf(e));
  }

  lemma ToolSkeleton(t: State, before: seq<Event>, e: Event, showResults: bool)
    requires t == Run(before, showResults) && StacksAgree(t) && IsTool(e)
    ensures Skeleton(Apply(t, e, showResults).segments) == Skeleton(t.segments) + Added(before, e, showResults)
  {
    ToolApplied(t, e, showResults);
    OpenSubagents(t);
    if NameOf(e) == "Task" {
      TaskSkeleton(t, e);
    } else {
      CallSkeleton(Named(t, ToolId(e), NameOf(e)), ToolId(e), NameOf(e));
    }
  }

  lemma TaskSkeleton(t: State, e: Event)
    requires IsTool(e) && NameOf(e) == "Task"
    ensures Skeleton(ToolPart(t, e).segments) == Skeleton(t.segments) + ToolAdded(e, t.stack == [])
  {
    SkeletonAdded(t.segments, NewSubagent(e.heading));
    PushAdds(t, e);
  }

  lemma PushAdds(t: State, e: Event)
    requires IsTool(e) && NameOf(e) == "Task"
    ensures ToolPart(t, e).segments == t.segments + [NewSubagent(e.heading)]
  {
  }

  lemma ResultSkeleton(t: State, e: Event, name: Option<string>, showResults: bool)
    requires e.ResultEvent? && name == if e.id in t.toolNames then Some(t.toolNames[e.id]) else None
    ensures Skeleton(Apply(t, e, showResults).segments)
         == Skeleton(t.segments) + if showResults then [ToolResult(e.id, name, e.content, e.isError)] else []
  {
    SkeletonAdded(t.segments, ToolResult(e.id, name, e.content, e.isError));
  }

  lemma QuietSkeleton(t: State, before: seq<Event>, e: Event, showResults: bool)
    requires !IsTool(e) && !e.Chunk? && !e.ResultEvent?
    ensures Skeleton(Apply(t, e, showResults).segments) == Skeleton(t.segments) + Added(before, e, showResults)
  {
    if e.ErrorEvent? {
      SkeletonAdded(t.segments, Error(if e.message == "" then "Unknown error" else e.message));
    } else {
      BlockSkeleton(t, e, showResults);
    }
  }

  lemma BlockSkeleton(t: State, e: Event, showResults: bool)
    requires !IsTool(e) && !e.Chunk? && !e.ResultEvent? && !e.ErrorEvent?
    ensures Skeleton(Apply(t, e, showResults).segments) == Skeleton(t.segments)
  {
    if e.BlockStart? {
      SkeletonAdded(t.segments, NewSegment(e.kind));
    }
  }

  lemma StepSkeleton(t: State, before: seq<Event>, e: Event, showResults: bool)
    requires t == Run(before, showResults) && StacksAgree(t)
    requires e.ResultEvent? ==> KnownName(before, e.id) == if e.id in t.toolNames then Some(t.toolNames[e.id]) else None
    ensures Skeleton(Apply(t, e, showResults).segments) == Skeleton(t.segments) + Added(before, e, showResults)
  {
    if IsTool(e) {
      ToolSkeleton(t, before, e, showResults);
    } else if e.Chunk? {
      ChunkSkeleton(t, e.kind, e.index, e.text, showResults);
    } else if e.ResultEvent? {
      ResultSkeleton(t, e, KnownName(before, e.id), showResults);
    } else {
      QuietSkeleton(t, before, e, showResults);
    }
  }

  lemma StepNames(t: State, e: Event, showResults: bool)
    ensures Apply(t, e, showResults).toolNames
         == if IsTool(e) && ToolId(e) != "" then t.toolNames[ToolId(e) := NameOf(e)] else t.toolNames
  {
    if IsTool(e) {
      ToolApplied(t, e, showResults);
    }
  }

  lemma {:induction false} RunsKnowNames(events: seq<Event>, id: string, showResults: bool)
    ensures var t := Run(events, showResults);
            KnownName(events, id) == if id in t.toolNames then Some(t.toolNames[id]) else None
  {
    if events != [] {
      RunsKnowNames(events[..|events| - 1], id, showResults);
      StepNames(Run(events[..|events| - 1], showResults), events[|events| - 1], showResults);
    }
  }

  /** Over every run the transcript holds, apart from text and in this order, exactly the tool calls
      made outside of subagents, the subagents, the results when shown, and the errors. */
  lemma {:induction false} RunsShowTools(events: seq<Event>, showResults: bool)
    ensures Skeleton(Run(events, showResults).segments) == Expected(events, showResults)
  {
    if events != [] {
      var before, e := events[..|events| - 1], events[|events| - 1];
      RunsShowTools(before, showResults);
      RunsAgree(before, showResults);
      if e.ResultEvent? {
        RunsKnowNames(before, e.id, showResults);
      }
      StepSkeleton(Run(before, showResults), before, e, showResults);
    }
  }

  // What each subagent has counted.

  /** The event calls a tool inside the subagent whose segment stands at `at`. */
  predicate CallsInside(t: State, e: Event, at: nat) {
    IsTool(e) && NameOf(e) != "Task" && t.stack != [] && t.stackSegments != []
    && t.stackSegments[|t.stackSegments| - 1] == at
  }

  /** The tools called, in order, while the subagent at this place was the innermost one open. */
  function CallsAt(events: seq<Event>, at: nat, showResults: bool): seq<(string, string)> {
    if events == [] then []
    else
      var before, e := events[..|events| - 1], events[|events| - 1];
      CallsAt(before, at, showResults)
      + if CallsInside(Run(before, showResults), e, at) then [(ToolId(e), NameOf(e))] else []
  }

  ghost predicate Counts(s: Segment, calls: seq<(string, string)>) {
    s.Subagent? ==>
      && s.toolCalls == |calls| && s.toolsUsed == (set c | c in calls :: c.1)
      && s.currentTool == if calls == [] then None else Some(calls[|calls| - 1])
  }

  lemma CountsOneMore(s: Segment, calls: seq<(string, string)>, c: (string, string))
    requires s.Subagent? && Counts(s, calls)
    ensures Counts(Subagent(s.heading, s.toolCalls + 1, s.toolsUsed + {c.1}, Some(c)), calls + [c])
  {
    assert forall x :: x in calls + [c] <==> x in calls || x == c;
  }

  /** What the event makes of a subagent's segment. */
  function Counted(t: State, e: Event, at: nat): Segment
    requires at < |t.segments| && t.segments[at].Subagent?
  {
    var s := t.segments[at];
    if CallsInside(t, e, at)
    then Subagent(s.heading, s.toolCalls + 1, s.toolsUsed + {NameOf(e)}, Some((ToolId(e), NameOf(e)))) else s
  }

  lemma ChunkCounts(t: State, e: Event, at: nat, showResults: bool)
    requires at < |t.segments| && t.segments[at].Subagent? && e.Chunk?
    ensures at < |Apply(t, e, showResults).segments| && Apply(t, e, showResults).segments[at] == t.segments[at]
  {
  }

  /** Segments keep their place; only a subagent whose tool is called changes its counts. */
  lemma StepCounts(t: State, e: Event, at: nat, showResults: bool)
    requires StacksAgree(t) && at < |t.segments| && t.segments[at].Subagent?
    ensures at < |Apply(t, e, showResults).segments| && Apply(t, e, showResults).segments[at] == Counted(t, e, at)
  {
    if IsTool(e) {
      ToolApplied(t, e, showResults);
      ToolCounts(t, e, at);
    } else if e.Chunk? {
      ChunkCounts(t, e, at, showResults);
    } else {
      QuietCounts(t, e, at, showResults);
    }
  }

  lemma ToolCounts(t: State, e: Event, at: nat)
    requires IsTool(e) && |t.stack| == |t.stackSegments| && at < |t.segments| && t.segments[at].Subagent?
    ensures at < |ToolPart(t, e).segments| && ToolPart(t, e).segments[at] == Counted(t, e, at)
  {
    if NameOf(e) == "Task" {
      PushAdds(t, e);
    } else {
      CallCounts(Named(t, ToolId(e), NameOf(e)), ToolId(e), NameOf(e), at);
    }
  }

  lemma CallCounts(t: State, id: string, name: string, at: nat)
    requires |t.stack| == |t.stackSegments| && at < |t.segments| && t.segments[at].Subagent?
    ensures at < |CallTool(t, id, name).segments|
    ensures var s := t.segments[at];
            CallTool(t, id, name).segments[at]
            == if t.stack != [] && t.stackSegments[|t.stackSegments| - 1] == at
               then Subagent(s.heading, s.toolCalls + 1, s.toolsUsed + {name}, Some((id, name))) else s
  {
  }

  lemma QuietCounts(t: State, e: Event, at: nat, showResults: bool)
    requires !IsTool(e) && !e.Chunk? && at < |t.segments|
    ensures at < |Apply(t, e, showResults).segments| && Apply(t, e, showResults).segments[at] == t.segments[at]
  {
  }

  /** A subagent segment that is new starts with nothing counted. */
  lemma NewCounts(t: State, e: Event, at: nat, showResults: bool)
    requires StacksAgree(t) && at < |Apply(t, e, showResults).segments|
        && Apply(t, e, showResults).segments[at].Subagent?
    requires at >= |t.segments| || !t.segments[at].Subagent?
    ensures at >= |t.segments|
    ensures Counts(Apply(t, e, showResults).segments[at], []) && !CallsInside(t, e, at)
  {
    OpenSubagents(t);
    if IsTool(e) {
      ToolApplied(t, e, showResults);
      NewFromTool(t, e, at);
    } else if e.Chunk? {
      NewFromChunk(t, e, at, showResults);
    }
  }

  lemma NewFromTool(t: State, e: Event, at: nat)
    requires IsTool(e) && |t.stack| == |t.stackSegments|
    requires forall i :: 0 <= i < |t.stack| ==>
              t.stackSegments[i] < |t.segments| && t.segments[t.stackSegments[i]].Subagent?
    requires at < |ToolPart(t, e).segments| && ToolPart(t, e).segments[at].Subagent?
    requires at >= |t.segments| || !t.segments[at].Subagent?
    ensures at >= |t.segments| && Counts(ToolPart(t, e).segments[at], [])
  {
    if NameOf(e) == "Task" {
      PushAdds(t, e);
    }
  }

  lemma NewFromChunk(t: State, e: Event, at: nat, showResults: bool)
    requires e.Chunk? && at < |Apply(t, e, showResults).segments| && Apply(t, e, showResults).segments[at].Subagent?
    ensures at < |t.segments| && t.segments[at].Subagent?
  {
  }

  lemma {:induction false} NoCallsBefore(events: seq<Event>, at: nat, showResults: bool)
    requires at >= |Run(events, showResults).segments|
    ensures CallsAt(events, at, showResults) == []
  {
    if events != [] {
      var before := events[..|events| - 1];
      var t := Run(before, showResults);
      RunsAgree(before, showResults);
      OpenSubagents(t);
      SegmentsGrow(t, events[|events| - 1], showResults);
      NoCallsBefore(before, at, showResults);
    }
  }

  /** Over every run each subagent segment counts exactly the tools called while it was the innermost
      one open: how many, which, and which last. */
  lemma {:induction false} RunsCountInside(events: seq<Event>, at: nat, showResults: bool)
    requires at < |Run(events, showResults).segments|
    ensures Counts(Run(events, showResults).segments[at], CallsAt(events, at, showResults))
  {
    if events != [] && Run(events, showResults).segments[at].Subagent? {
      var before, e := events[..|events| - 1], events[|events| - 1];
      var t := Run(before, showResults);
      RunsAgree(before, showResults);
      if at < |t.segments| && t.segments[at].Subagent? {
        RunsCountInside(before, at, showResults);
        StepCounts(t, e, at, showResults);
        if CallsInside(t, e, at) {
          CountsOneMore(t.segments[at], CallsAt(before, at, showResults), (ToolId(e), NameOf(e)));
        }
      } else {
        NewCounts(t, e, at, showResults);
        NoCallsBefore(before, at, showResults);
      }
    }
  }
}
