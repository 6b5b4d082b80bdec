/** The transcript object with its fields updated in place, event by event. */
module TranscriptBufferObject {
  import opened Base
  import opened Transcript

  class TranscriptBuffer {
    const showToolResults: bool
    var segments: seq<Segment>
    var openThinkingByIndex: map<int, nat>
    var openTextByIndex: map<int, nat>
    var openToolsByIndex: set<int>
    var toolNameById: map<string, string>
    var subagentStack: seq<string>
    var subagentSegments: seq<nat>
    ghost var landings: seq<Landing>
    ghost var pushes: seq<(string, nat)>

    ghost function Fields(): State
      reads this
    {
      State(segments, openThinkingByIndex, openTextByIndex, openToolsByIndex, toolNameById,
                  subagentStack, subagentSegments, landings, pushes)
    }

    ghost predicate Valid()
      reads this
    {
      StacksAgree(Fields()) && LandingsAgree(Fields())
    }

    constructor (showToolResults: bool)
      ensures Valid() && Fields() == EMPTY && this.showToolResults == showToolResults
    {
      this.showToolResults := showToolResults;
      segments, openThinkingByIndex, openTextByIndex, openToolsByIndex := [], map[], map[], {};
      toolNameById, subagentStack, subagentSegments := map[], [], [];
      landings, pushes := [], [];
    }

    method SubagentPush(toolId: string, heading: string)
      modifies this
      ensures Fields() == Push(old(Fields()), toolId, heading)
    {
      var key := StackKey(toolId, |subagentStack| + 1);
      pushes := pushes + [(key, |segments|)];
      subagentStack := subagentStack + [key];
      subagentSegments := subagentSegments + [|segments|];
      segments := segments + [Subagent(if heading == "" then "Subagent" else heading, 0, {}, None)];
    }

    method PopOne()
      requires subagentStack != []
      modifies this`subagentStack, this`subagentSegments
      ensures subagentStack == old(subagentStack)[..|old(subagentStack)| - 1]
      ensures var before := old(subagentSegments);
              subagentSegments == if before == [] then [] else before[..|before| - 1]
    {
      subagentStack := subagentStack[..|subagentStack| - 1];
      if subagentSegments != [] {
        subagentSegments := subagentSegments[..|subagentSegments| - 1];
      }
    }

    /** Fast path, then the scan from the top, then popping one by one. */
    method SubagentPop(toolId: string) returns (popped: bool)
      requires |subagentStack| == |subagentSegments|
      modifies this`subagentStack, this`subagentSegments
      ensures subagentStack == Popped(old(subagentStack), toolId)
      ensures subagentSegments == old(subagentSegments)[..|subagentStack|]
      ensures popped <==> subagentStack != old(subagentStack)
    {
      if subagentStack == [] {
        return false;
      }
      var top := |subagentStack| - 1;
      if toolId != "" {
        if RoughMatch(subagentStack[top], toolId) {
          PopOne();
          return true;
        }
        var i := top;
        while i >= 0 && !RoughMatch(subagentStack[i], toolId)
          invariant -1 <= i <= top
          invariant forall j :: i < j <= top ==> !RoughMatch(subagentStack[j], toolId)
        {
          i := i - 1;
        }
        if i < 0 {
          return false;
        }
        while |subagentStack| > i
          invariant i <= |subagentStack| == |subagentSegments| <= |old(subagentStack)|
          invariant subagentStack == old(subagentStack)[..|subagentStack|]
          invariant subagentSegments == old(subagentSegments)[..|subagentStack|]
        {
          PopOne();
        }
        assert |subagentStack| == i < |old(subagentStack)|;
        return true;
      }
      if SYNTHETIC <= subagentStack[top] {
        PopOne();
        return true;
      }
      return false;
    }

    method BlockStopAt(index: int)
      modifies this`openThinkingByIndex, this`openTextByIndex, this`openToolsByIndex
      ensures Fields() == CloseBlock(old(Fields()), index)
    {
      if index in openToolsByIndex {
        openToolsByIndex := openToolsByIndex - {index};
      } else if index in openThinkingByIndex {
        if index >= 0 {
          openThinkingByIndex := openThinkingByIndex - {index};
        }
      } else if index in openTextByIndex {
        if index >= 0 {
          openTextByIndex := openTextByIndex - {index};
        }
      }
    }

    /** A fresh segment at the end, registered as open when the index is usable. */
    method OpenSegment(kind: ChunkKind, index: int)
      modifies this`segments, this`openThinkingByIndex, this`openTextByIndex
      ensures Fields() == Opened(old(Fields()), kind, index)
    {
      var at := |segments|;
      segments := segments + [NewSegment(kind)];
      if index >= 0 {
        if kind.ThinkingChunk? {
          openThinkingByIndex := openThinkingByIndex[index := at];
        } else {
          openTextByIndex := openTextByIndex[index := at];
        }
      }
    }

    method RecordToolCall(toolId: string, name: string)
      requires Valid()
      modifies this`segments
      ensures Fields() == CallTool(old(Fields()), toolId, name)
    {
      if subagentStack != [] && subagentSegments != [] {
        var at := subagentSegments[|subagentSegments| - 1];
        assert (subagentStack[|subagentStack| - 1], at) in pushes;
        var s := segments[at];
        segments := segments[at := Subagent(s.heading, s.toolCalls + 1, s.toolsUsed + {name}, Some((toolId, name)))];
      } else {
        segments := segments + [ToolCall(toolId, name)];
      }
    }

    method ApplyChunk(kind: ChunkKind, index: int, text: string)
      requires Valid() && subagentStack == []
      modifies this
      ensures Fields() == Transcript.Apply(old(Fields()), Chunk(kind, index, text), showToolResults)
    {
      var open := if kind.ThinkingChunk? then openThinkingByIndex else openTextByIndex;
      var at: nat;
      if index in open {
        at := open[index];
      } else {
        at := |segments|;
        OpenSegment(kind, index);
      }
      if text != "" {
        var parts := segments[at].parts + [text];
        segments := segments[at := if kind.ThinkingChunk? then Thinking(parts) else Text(parts)];
        landings := landings + [Landing(kind, text, at)];
      }
    }

    method ApplyToolUse(toolId: string, rawName: string, heading: string) returns (isTask: bool)
      requires Valid()
      modifies this
      ensures var name := ToolName(rawName);
              var t1 := Named(old(Fields()), toolId, name);
              && isTask == (name == "Task")
              && Fields() == if isTask then Push(t1, toolId, heading) else CallTool(t1, toolId, name)
    {
      var name := if rawName == "" then "tool" else rawName;
      if toolId != "" {
        toolNameById := toolNameById[toolId := name];
      }
      isTask := name == "Task";
      if isTask {
        SubagentPush(toolId, heading);
      } else {
        RecordToolCall(toolId, name);
      }
    }

    method CloseSubagents(e: Event)
      requires |subagentStack| == |subagentSegments| && e.ResultEvent?
      modifies this`subagentStack, this`subagentSegments
      ensures subagentStack == AfterResult(old(Fields()), e)
      ensures subagentSegments == old(subagentSegments)[..|subagentStack|]
    {
      var name := if e.id in toolNameById then Some(toolNameById[e.id]) else None;
      if subagentStack != [] {
        var popped := SubagentPop(e.id);
        var top := if subagentStack != [] then subagentStack[|subagentStack| - 1] else "";
        if !popped && e.id != "" && SYNTHETIC <= top && (name == None || name == Some("Task")) && e.namesTask {
          var again := SubagentPop("");
        }
      }
    }

    method ApplyResult(e: Event)
      requires |subagentStack| == |subagentSegments| && e.ResultEvent?
      modifies this`subagentStack, this`subagentSegments, this`segments
      ensures Fields() == Transcript.Apply(old(Fields()), e, showToolResults)
    {
      CloseSubagents(e);
      var name := if e.id in toolNameById then Some(toolNameById[e.id]) else None;
      if showToolResults {
        segments := segments + [ToolResult(e.id, name, e.content, e.isError)];
      }
    }

    /** `apply`: the fields always move as the specification says, and stay consistent. */
    method Apply(e: Event)
      requires Valid()
      modifies this
      ensures Valid() && Fields() == Transcript.Apply(old(Fields()), e, showToolResults)
    {
      StepAgrees(Fields(), e, showToolResults);
      match e
      case BlockStart(kind, index) =>
        if subagentStack == [] {
          if index >= 0 {
            BlockStopAt(index);
          }
          OpenSegment(kind, index);
        }
      case Chunk(kind, index, text) =>
        if subagentStack == [] {
          ApplyChunk(kind, index, text);
        }
      case ChunkStop(kind, index) =>
        if index >= 0 {
          if kind.ThinkingChunk? {
            openThinkingByIndex := openThinkingByIndex - {index};
          } else {
            openTextByIndex := openTextByIndex - {index};
          }
        }
      case BlockStop(index) => BlockStopAt(index);
      case ToolUseStart(index, id, name, heading) =>
        if index >= 0 {
          ClosedAgrees(Fields(), index);
          BlockStopAt(index);
        }
        var isTask := ApplyToolUse(id, name, heading);
        if !isTask && index >= 0 {
          openToolsByIndex := openToolsByIndex + {index};
        }
      case ToolUseStop(index) =>
        openToolsByIndex := openToolsByIndex - {index};
      case ToolUse(id, name, heading) =>
        var isTask := ApplyToolUse(id, name, heading);
      case ResultEvent(_, _, _, _) => ApplyResult(e);
      case ErrorEvent(message) =>
        segments := segments + [Error(if message == "" then "Unknown error" else message)];
      case Ignored =>
    }
  }
}
