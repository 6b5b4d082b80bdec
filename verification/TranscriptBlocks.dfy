/** Which segment a chunk belongs to, read off the events alone: the block open at an index. */
module TranscriptBlocks {
  import opened Base
  import opened Transcript

  /** What is open at one index: a tool, and for each kind of text the number of the event that opened
      the block. */
  datatype Slot = Slot(tool: bool, thinking: Option<nat>, text: Option<nat>)

  const CLOSED := Slot(false, None, None)

  function OpenerIn(s: Slot, kind: ChunkKind): Option<nat> {
    if kind.ThinkingChunk? then s.thinking else s.text
  }

  function WithOpener(s: Slot, kind: ChunkKind, opener: Option<nat>): Slot {
    if kind.ThinkingChunk? then s.(thinking := opener) else s.(text := opener)
  }

  /** A block stop, or a new start, closes one thing only: the tool, else thinking, else text. */
  function CloseOne(s: Slot): Slot {
    if s.tool then s.(tool := false) else if s.thinking.Some? then s.(thinking := None) else s.(text := None)
  }

  /** Event number n, with no subagent open iff `outside`. */
  function SlotAfter(s: Slot, e: Event, n: nat, index: int, outside: bool): Slot {
    match e
    case BlockStart(kind, i) => if i == index && outside then WithOpener(CloseOne(s), kind, Some(n)) else s
    case Chunk(kind, i, _) => if i == index && outside
        && OpenerIn(s, kind).None? then WithOpener(s, kind, Some(n)) else s
    case ChunkStop(kind, i) => if i == index then WithOpener(s, kind, None) else s
    case BlockStop(i) => if i == index then CloseOne(s) else s
    case ToolUseStart(i, _, name, _) => if i == index
        then CloseOne(s).(tool := CloseOne(s).tool || name != "Task") else s
    case ToolUseStop(i) => if i == index then s.(tool := false) else s
    case _ => s
  }

  /** No subagent is open after the events. */
  predicate Outside(events: seq<Event>, showResults: bool) {
    Run(events, showResults).stack == []
  }

  function SlotAt(events: seq<Event>, index: int, showResults: bool): Slot {
    if events == [] then CLOSED
    else
      var before := events[..|events| - 1];
      SlotAfter(SlotAt(before, index, showResults), events[|events| - 1], |before|, index, Outside(before, showResults))
  }

  /** The event that opened the block a chunk of this kind at this index would now go to. */
  function OpenedBy(events: seq<Event>, kind: ChunkKind, index: int, showResults: bool): Option<nat> {
    OpenerIn(SlotAt(events, index, showResults), kind)
  }

  /** Where the segment made by event n stands, if it made one. */
  function Place(events: seq<Event>, n: nat, showResults: bool): nat
    requires n <= |events|
  {
    |Run(events[..n], showResults).segments|
  }

  // The transcript's maps say the same.

  function At(m: map<int, nat>, i: int): Option<nat> {
    if i in m then Some(m[i]) else None
  }

  /** The transcript's own slot holds segment positions in the place of event numbers. */
  function View(t: State, index: int): Slot {
    Slot(index in t.openTools, At(t.openThinking, index), At(t.openText, index))
  }

  lemma CloseView(t: State, i: int, index: int)
    requires i >= 0 && index >= 0
    ensures View(CloseBlock(t, i), index) == if i == index then CloseOne(View(t, index)) else View(t, index)
  {
  }

  lemma OpenView(t: State, kind: ChunkKind, i: int, index: int)
    requires index >= 0
    ensures View(Opened(t, kind, i), index)
         == if i == index then WithOpener(View(t, index), kind, Some(|t.segments|)) else View(t, index)
  {
  }

  lemma SameMapsView(t: State, t': State, index: int)
    requires t'.openThinking == t.openThinking && t'.openText == t.openText && t'.openTools == t.openTools
    ensures View(t', index) == View(t, index)
  {
  }

  lemma ChunkView(t: State, kind: ChunkKind, i: int, text: string, index: int, showResults: bool)
    requires index >= 0 && LandingsAgree(t)
    ensures View(Apply(t, Chunk(kind, i, text), showResults), index)
         == SlotAfter(View(t, index), Chunk(kind, i, text), |t.segments|, index, t.stack == [])
  {
    if t.stack == [] {
      OpenView(t, kind, i, index);
      var t1 := if Target(t, kind, i) == |t.segments| then Opened(t, kind, i) else t;
      SameMapsView(t1, Append(t1, kind, Target(t, kind, i), text), index);
    }
  }

  lemma ToolStartView(t: State, i: int, id: string, rawName: string, heading: string, index: int, showResults: bool)
    requires index >= 0
    ensures View(Apply(t, ToolUseStart(i, id, rawName, heading), showResults), index)
         == SlotAfter(View(t, index), ToolUseStart(i, id, rawName, heading), |t.segments|, index, t.stack == [])
  {
    var t0 := if i >= 0 then CloseBlock(t, i) else t;
    var name := ToolName(rawName);
    if i >= 0 {
      CloseView(t, i, index);
    }
    var t1 := Named(t0, id, name);
    SameMapsView(t0, t1, index);
    if name == "Task" {
      SameMapsView(t1, Push(t1, id, heading), index);
    } else {
      SameMapsView(t1, CallTool(t1, id, name), index);
    }
  }

  lemma BlockView(t: State, e: Event, index: int, showResults: bool)
    requires index >= 0 && (e.BlockStart? || e.ChunkStop? || e.BlockStop? || e.ToolUseStop?)
    ensures View(Apply(t, e, showResults), index) == SlotAfter(View(t, index), e, |t.segments|, index, t.stack == [])
  {
    match e
    case BlockStart(kind, i) =>
      if t.stack == [] && i >= 0 {
        CloseView(t, i, index);
      }
      OpenView(if i >= 0 then CloseBlock(t, i) else t, kind, i, index);
    case BlockStop(i) =>
      if i >= 0 {
        CloseView(t, i, index);
      }
    case _ =>
  }

  lemma ToolView(t: State, id: string, rawName: string, heading: string, index: int, showResults: bool)
    ensures View(Apply(t, ToolUse(id, rawName, heading), showResults), index) == View(t, index)
  {
    var name := ToolName(rawName);
    var t1 := Named(t, id, name);
    SameMapsView(t, t1, index);
    if name == "Task" {
      SameMapsView(t1, Push(t1, id, heading), index);
    } else {
      SameMapsView(t1, CallTool(t1, id, name), index);
    }
  }

  /** One event moves the view of an index exactly as it moves the slot. */
  lemma StepView(t: State, e: Event, index: int, showResults: bool)
    requires index >= 0 && LandingsAgree(t)
    ensures View(Apply(t, e, showResults), index) == SlotAfter(View(t, index), e, |t.segments|, index, t.stack == [])
  {
    match e
    case Chunk(kind, i, text) => ChunkView(t, kind, i, text, index, showResults);
    case ToolUseStart(i, id, name, heading) => ToolStartView(t, i, id, name, heading, index, showResults);
    case ToolUse(id, rawName, heading) => ToolView(t, id, rawName, heading, index, showResults);
    case ResultEvent(_, _, _, _) => SameMapsView(t, Apply(t, e, showResults), index);
    case ErrorEvent(_) => SameMapsView(t, Apply(t, e, showResults), index);
    case Ignored =>
    case _ => BlockView(t, e, index, showResults);
  }

  function Placed(o: Option<nat>, events: seq<Event>, showResults: bool): Option<nat> {
    if o.Some? && o.value < |events| then Some(Place(events, o.value, showResults)) else None
  }

  ghost predicate Linked(s: Slot, v: Slot, events: seq<Event>, showResults: bool) {
    && v.tool == s.tool
    && v.thinking == Placed(s.thinking, events, showResults) && v.text == Placed(s.text, events, showResults)
    && (s.thinking.Some? ==> s.thinking.value < |events|) && (s.text.Some? ==> s.text.value < |events|)
  }

  lemma LinkStays(s: Slot, v: Slot, before: seq<Event>, e: Event, showResults: bool)
    requires Linked(s, v, before, showResults)
    ensures Linked(s, v, before + [e], showResults)
  {
    forall n: nat | n <= |before| ensures Place(before + [e], n, showResults) == Place(before, n, showResults) {
      assert (before + [e])[..n] == before[..n];
    }
  }

  lemma LinkClosed(s: Slot, v: Slot, events: seq<Event>, showResults: bool)
    requires Linked(s, v, events, showResults)
    ensures Linked(CloseOne(s), CloseOne(v), events, showResults)
  {
  }

  lemma LinkSet(s: Slot, v: Slot, kind: ChunkKind, o: Option<nat>, events: seq<Event>, showResults: bool)
    requires Linked(s, v, events, showResults) && (o.Some? ==> o.value < |events|)
    ensures Linked(WithOpener(s, kind, o), WithOpener(v, kind, Placed(o, events, showResults)), events, showResults)
  {
  }

  /** A step keeps the link: whatever it opens is opened by this event, at the end of the list. */
  lemma LinkMoves(s: Slot, v: Slot, before: seq<Event>, e: Event, index: int, outside: bool, showResults: bool)
    requires Linked(s, v, before + [e], showResults)
    ensures Linked(SlotAfter(s, e, |before|, index, outside),
                   SlotAfter(v, e, |Run(before, showResults).segments|, index, outside), before + [e], showResults)
  {
    var events, now := before + [e], Some(|before|);
    assert Placed(now, events, showResults) == Some(|Run(before, showResults).segments|) by {
      assert events[..|before|] == before;
    }
    LinkClosed(s, v, events, showResults);
    match e
    case BlockStart(kind, _) => LinkSet(CloseOne(s), CloseOne(v), kind, now, events, showResults);
    case Chunk(kind, _, _) => LinkSet(s, v, kind, now, events, showResults);
    case ChunkStop(kind, _) => LinkSet(s, v, kind, None, events, showResults);
    case _ =>
  }

  lemma {:induction false} RunsLinked(events: seq<Event>, index: int, showResults: bool)
    requires index >= 0
    ensures Linked(SlotAt(events, index, showResults), View(Run(events, showResults), index), events, showResults)
  {
    if events != [] {
      var before, e := events[..|events| - 1], events[|events| - 1];
      assert events == before + [e];
      RunsLinked(before, index, showResults);
      RunsAgree(before, showResults);
      StepView(Run(before, showResults), e, index, showResults);
      LinkStays(SlotAt(before, index, showResults), View(Run(before, showResults), index), before, e, showResults);
      LinkMoves(SlotAt(before, index, showResults), View(Run(before, showResults), index), before, e, index,
                Outside(before, showResults), showResults);
    }
  }

  // Where chunks land.

  /** Event u is a chunk that the transcript keeps. */
  predicate KeptChunk(events: seq<Event>, u: nat, kind: ChunkKind, index: int, showResults: bool) {
    u < |events| && events[u].Chunk? && events[u].kind == kind && events[u].index == index && events[u].text != ""
    && Outside(events[..u], showResults)
  }

  /** The segment where the newest landing after event u went. */
  function Where(events: seq<Event>, u: nat, showResults: bool): Option<nat>
    requires u < |events|
  {
    var landings := Run(events[..u + 1], showResults).landings;
    if landings == [] then None else Some(landings[|landings| - 1].at)
  }

  lemma ChunkAt(t: State, kind: ChunkKind, index: int, text: string, showResults: bool)
    requires LandingsAgree(t) && StacksAgree(t) && t.stack == [] && text != ""
    ensures var landings := Apply(t, Chunk(kind, index, text), showResults).landings;
            var o := At(OpenBlocks(t, kind), index);
            landings != [] && landings[|landings| - 1].at == if o.Some? then o.value else |t.segments|
  {
    ChunkFate(t, Chunk(kind, index, text), showResults);
  }

  lemma RunsStepBy(events: seq<Event>, u: nat, showResults: bool)
    requires u < |events|
    ensures Run(events[..u + 1], showResults) == Apply(Run(events[..u], showResults), events[u], showResults)
  {
    assert events[..u + 1][..u] == events[..u] && events[..u + 1][u] == events[u];
  }

  /** A kept chunk lands in the segment of the event that opened its block, and in a new segment when no
      block is open at its index. */
  lemma ChunkJoinsOpener(events: seq<Event>, u: nat, kind: ChunkKind, index: int, showResults: bool)
    requires index >= 0 && KeptChunk(events, u, kind, index, showResults)
    ensures var o := OpenedBy(events[..u], kind, index, showResults);
            && (o.Some? ==> o.value < u)
            && Where(events, u, showResults) == Some(Place(events, if o.Some? then o.value else u, showResults))
  {
    var before := events[..u];
    WhereIs(events, u, kind, index, showResults);
    OpenerPlaced(before, kind, index, showResults);
    var o := OpenedBy(before, kind, index, showResults);
    if o.Some? {
      assert before[..o.value] == events[..o.value];
    }
  }

  lemma WhereIs(events: seq<Event>, u: nat, kind: ChunkKind, index: int, showResults: bool)
    requires KeptChunk(events, u, kind, index, showResults)
    ensures var t := Run(events[..u], showResults);
            var o := At(OpenBlocks(t, kind), index);
            Where(events, u, showResults) == Some(if o.Some? then o.value else |t.segments|)
  {
    RunsAgree(events[..u], showResults);
    RunsStepBy(events, u, showResults);
    ChunkAt(Run(events[..u], showResults), kind, index, events[u].text, showResults);
  }

  lemma OpenerPlaced(events: seq<Event>, kind: ChunkKind, index: int, showResults: bool)
    requires index >= 0
    ensures var o := OpenedBy(events, kind, index, showResults);
            && (o.Some? ==> o.value < |events|)
            && At(OpenBlocks(Run(events, showResults), kind), index) == Placed(o, events, showResults)
  {
    RunsLinked(events, index, showResults);
  }

  lemma {:induction false} NoNegativeOpen(events: seq<Event>, kind: ChunkKind, index: int, showResults: bool)
    requires index < 0
    ensures index !in OpenBlocks(Run(events, showResults), kind)
  {
    if events != [] {
      NoNegativeOpen(events[..|events| - 1], ThinkingChunk, index, showResults);
      NoNegativeOpen(events[..|events| - 1], TextChunk, index, showResults);
      NegativeStep(Run(events[..|events| - 1], showResults), events[|events| - 1], index, showResults);
    }
  }

  predicate ShutAt(t: State, index: int) {
    index !in t.openThinking && index !in t.openText
  }

  lemma ShutClosed(t: State, i: int, index: int)
    requires ShutAt(t, index)
    ensures ShutAt(CloseBlock(t, i), index)
  {
  }

  lemma ShutOpened(t: State, kind: ChunkKind, i: int, index: int)
    requires index < 0 && ShutAt(t, index)
    ensures ShutAt(Opened(t, kind, i), index)
  {
  }

  lemma ShutKept(t: State, t': State, index: int)
    requires ShutAt(t, index) && t'.openThinking == t.openThinking && t'.openText == t.openText
    ensures ShutAt(t', index)
  {
  }

  lemma ShutTool(t: State, id: string, rawName: string, heading: string, index: int)
    requires ShutAt(t, index)
    ensures var t1 := Named(t, id, ToolName(rawName));
            ShutAt(Push(t1, id, heading), index) && ShutAt(CallTool(t1, id, ToolName(rawName)), index)
  {
    var t1 := Named(t, id, ToolName(rawName));
    ShutKept(t, Push(t1, id, heading), index);
    ShutKept(t, CallTool(t1, id, ToolName(rawName)), index);
  }

  lemma NegativeStep(t: State, e: Event, index: int, showResults: bool)
    requires index < 0 && ShutAt(t, index)
    ensures ShutAt(Apply(t, e, showResults), index)
  {
    match e
    case BlockStart(kind, i) =>
      ShutClosed(t, i, index);
      ShutOpened(if i >= 0 then CloseBlock(t, i) else t, kind, i, index);
    case Chunk(kind, i, text) =>
      ShutOpened(t, kind, i, index);
      var t1 := if Target(t, kind, i) == |t.segments| then Opened(t, kind, i) else t;
      ShutKept(t1, Append(t1, kind, Target(t, kind, i), text), index);
    case BlockStop(i) => ShutClosed(t, i, index);
    case ToolUseStart(i, id, name, heading) =>
      ShutClosed(t, i, index);
      ShutTool(if i >= 0 then CloseBlock(t, i) else t, id, name, heading, index);
    case ToolUse(id, name, heading) => ShutTool(t, id, name, heading, index);
    case ResultEvent(_, _, _, _) => ShutKept(t, Apply(t, e, showResults), index);
    case _ =>
  }

  /** A chunk without an index never joins anything: it lands in a segment of its own. */
  lemma UnindexedChunkIsAlone(events: seq<Event>, u: nat, kind: ChunkKind, index: int, showResults: bool)
    requires index < 0 && KeptChunk(events, u, kind, index, showResults)
    ensures Where(events, u, showResults) == Some(Place(events, u, showResults))
  {
    NoNegativeOpen(events[..u], kind, index, showResults);
    WhereIs(events, u, kind, index, showResults);
  }

  // When do two chunks share a segment?

  /** A stop without a kind, or a start, at this index would close the block of this kind next. */
  predicate IsNext(s: Slot, kind: ChunkKind) {
    !s.tool && (kind.ThinkingChunk? || s.thinking.None?)
  }

  /** The event ends the block of this kind that is open at the index. */
  predicate Ends(s: Slot, e: Event, kind: ChunkKind, index: int, outside: bool) {
    match e
    case BlockStart(k, i) => i == index && outside && (k == kind || IsNext(s, kind))
    case ChunkStop(k, i) => i == index && k == kind
    case BlockStop(i) => i == index && IsNext(s, kind)
    case ToolUseStart(i, _, _, _) => i == index && IsNext(s, kind)
    case _ => false
  }

  predicate EndsAt(events: seq<Event>, w: nat, kind: ChunkKind, index: int, showResults: bool)
    requires w < |events|
  {
    Ends(SlotAt(events[..w], index, showResults), events[w], kind, index, Outside(events[..w], showResults))
  }

  lemma EndsIff(s: Slot, e: Event, n: nat, kind: ChunkKind, index: int, outside: bool)
    requires OpenerIn(s, kind).Some? && OpenerIn(s, kind).value < n
    ensures var o := OpenerIn(SlotAfter(s, e, n, index, outside), kind);
            if Ends(s, e, kind, index, outside) then o.None? || o == Some(n) else o == OpenerIn(s, kind)
  {
  }

  lemma OpenerFresh(s: Slot, e: Event, n: nat, kind: ChunkKind, index: int, outside: bool)
    ensures var o := OpenerIn(SlotAfter(s, e, n, index, outside), kind);
            o.None? || o == Some(n) || o == OpenerIn(s, kind)
  {
  }

  lemma SlotStep(events: seq<Event>, v: nat, index: int, showResults: bool)
    requires v < |events|
    ensures SlotAt(events[..v + 1], index, showResults)
         == SlotAfter(SlotAt(events[..v], index, showResults), events[v], v, index, Outside(events[..v], showResults))
  {
    assert events[..v + 1][..v] == events[..v] && events[..v + 1][v] == events[v];
  }

  /** No event between u and v ended the block. */
  ghost predicate Unended(events: seq<Event>, u: nat, v: nat, kind: ChunkKind, index: int, showResults: bool)
    requires v <= |events|
  {
    forall w :: u < w < v ==> !EndsAt(events, w, kind, index, showResults)
  }

  lemma UnendedStep(events: seq<Event>, u: nat, v: nat, kind: ChunkKind, index: int, showResults: bool)
    requires u + 1 < v <= |events|
    ensures Unended(events, u, v, kind, index, showResults)
       <==> Unended(events, u, v - 1, kind, index, showResults) && !EndsAt(events, v - 1, kind, index, showResults)
  {
  }

  /** The block open before event v is still the one of opener o iff nothing since has ended it; a
      later one was opened later. */
  ghost predicate KeptIff(events: seq<Event>, u: nat, v: nat, o: nat, kind: ChunkKind, index: int, showResults: bool)
    requires v <= |events|
  {
    var p := OpenedBy(events[..v], kind, index, showResults);
    && (p == Some(o) <==> Unended(events, u, v, kind, index, showResults))
    && (p.Some? ==> p == Some(o) || u < p.value < v)
  }

  lemma {:induction false} OpenerKeptIff(events: seq<Event>, u: nat, v: nat, o: nat,
                                         kind: ChunkKind, index: int, showResults: bool)
    requires u < v <= |events| && o <= u && OpenedBy(events[..u + 1], kind, index, showResults) == Some(o)
    ensures KeptIff(events, u, v, o, kind, index, showResults)
    decreases v
  {
    if v > u + 1 {
      OpenerKeptIff(events, u, v - 1, o, kind, index, showResults);
      OpenerKeptStep(events, u, v - 1, o, kind, index, showResults);
    }
  }

  lemma OpenerKeptStep(events: seq<Event>, u: nat, v: nat, o: nat, kind: ChunkKind, index: int, showResults: bool)
    requires o <= u < v < |events| && KeptIff(events, u, v, o, kind, index, showResults)
    ensures KeptIff(events, u, v + 1, o, kind, index, showResults)
  {
    UnendedStep(events, u, v + 1, kind, index, showResults);
    OpenerStep(events, v, kind, index, showResults);
    KeptOneMore(OpenedBy(events[..v], kind, index, showResults), OpenedBy(events[..v + 1], kind, index, showResults),
                u, v, o, Unended(events, u, v, kind, index, showResults), EndsAt(events, v, kind, index, showResults));
  }

  lemma KeptOneMore(p: Option<nat>, q: Option<nat>, u: nat, v: nat, o: nat, unended: bool, ends: bool)
    requires o <= u < v && (p == Some(o) <==> unended) && (p.Some? ==> p == Some(o) || u < p.value < v)
    requires (q.None? || q == Some(v) || q == p) && (p.Some? && p.value < v ==> (q == p <==> !ends))
    ensures q == Some(o) <==> unended && !ends
    ensures q.Some? ==> q == Some(o) || u < q.value < v + 1
  {
  }

  lemma OpenerStep(events: seq<Event>, v: nat, kind: ChunkKind, index: int, showResults: bool)
    requires v < |events|
    ensures var p, q := OpenedBy(events[..v], kind, index, showResults),
        OpenedBy(events[..v + 1], kind, index, showResults);
            && (q.None? || q == Some(v) || q == p)
            && (p.Some? && p.value < v ==> (q == p <==> !EndsAt(events, v, kind, index, showResults)))
  {
    SlotStep(events, v, index, showResults);
    var s, outside := SlotAt(events[..v], index, showResults), Outside(events[..v], showResults);
    OpenerFresh(s, events[v], v, kind, index, outside);
    if OpenerIn(s, kind).Some? && OpenerIn(s, kind).value < v {
      EndsIff(s, events[v], v, kind, index, outside);
    }
  }

  lemma {:induction false} PlacesGrow(events: seq<Event>, m: nat, n: nat, showResults: bool)
    requires m <= n <= |events|
    ensures Place(events, m, showResults) <= Place(events, n, showResults)
    decreases n
  {
    if m < n {
      PlacesGrow(events, m, n - 1, showResults);
      PlaceGrows(events, n - 1, showResults);
    }
  }

  lemma PlaceGrows(events: seq<Event>, n: nat, showResults: bool)
    requires n < |events|
    ensures Place(events, n, showResults) <= Place(events, n + 1, showResults)
  {
    RunsStepBy(events, n, showResults);
    SegmentsGrow(Run(events[..n], showResults), events[n], showResults);
  }

  /** After a kept chunk its block is open, by the event in whose segment it landed; and that event made
      a segment. */
  lemma ChunkLeavesOpen(events: seq<Event>, u: nat, kind: ChunkKind, index: int, showResults: bool) returns (o: nat)
    requires index >= 0 && KeptChunk(events, u, kind, index, showResults)
    ensures o <= u && OpenedBy(events[..u + 1], kind, index, showResults) == Some(o)
    ensures Where(events, u, showResults) == Some(Place(events, o, showResults))
    ensures Place(events, o, showResults) < Place(events, u + 1, showResults)
  {
    ChunkJoinsOpener(events, u, kind, index, showResults);
    SlotStep(events, u, index, showResults);
    var p := OpenedBy(events[..u], kind, index, showResults);
    o := if p.Some? then p.value else u;
    RunsStepBy(events, u, showResults);
    RunsAgree(events[..u + 1], showResults);
    var landings := Run(events[..u + 1], showResults).landings;
    assert landings[|landings| - 1].at < |Run(events[..u + 1], showResults).segments|;
  }

  /** Two kept chunks of one kind at one index land in the same segment iff no event in between ended
      the block. */
  lemma ChunksShareSegmentIff(events: seq<Event>, u: nat, v: nat, kind: ChunkKind, index: int, showResults: bool)
    requires index >= 0 && u < v
    requires KeptChunk(events, u, kind, index, showResults) && KeptChunk(events, v, kind, index, showResults)
    ensures Where(events, u, showResults) == Where(events, v, showResults)
       <==> Unended(events, u, v, kind, index, showResults)
  {
    var o := ChunkLeavesOpen(events, u, kind, index, showResults);
    OpenerKeptIff(events, u, v, o, kind, index, showResults);
    ChunkJoinsOpener(events, v, kind, index, showResults);
    var p := OpenedBy(events[..v], kind, index, showResults);
    var q := if p.Some? then p.value else v;
    if p != Some(o) {
      PlacesGrow(events, u + 1, q, showResults);
    }
  }

  /** The first chunk after a start lands in the segment of that start. */
  lemma ChunkFollowsStart(events: seq<Event>, u: nat, v: nat, kind: ChunkKind, index: int, showResults: bool)
    requires index >= 0 && u < v && KeptChunk(events, v, kind, index, showResults)
    requires events[u] == BlockStart(kind, index) && Outside(events[..u], showResults)
    requires Unended(events, u, v, kind, index, showResults)
    ensures Where(events, v, showResults) == Some(Place(events, u, showResults))
    ensures Place(events, u + 1, showResults) == Place(events, u, showResults) + 1
    ensures Run(events[..u + 1], showResults).segments[Place(events, u, showResults)] == NewSegment(kind)
  {
    SlotStep(events, u, index, showResults);
    OpenerKeptIff(events, u, v, u, kind, index, showResults);
    ChunkJoinsOpener(events, v, kind, index, showResults);
    RunsStepBy(events, u, showResults);
  }

  /** A block stop is no end when a tool is open at the same index: it closes the tool. */
  lemma BlockStopMayMiss(s: Slot, e: Event, n: nat, kind: ChunkKind, index: int)
    requires s.tool && OpenerIn(s, kind).Some? && e == BlockStop(index)
    ensures !Ends(s, e, kind, index, true) && OpenerIn(SlotAfter(s, e, n, index, true), kind) == OpenerIn(s, kind)
  {
  }

  /** So two chunks may share a segment with a block stop in between. */
  lemma BlockStopBetween()
    ensures var events := [ToolUseStart(0, "id", "Bash", ""), Chunk(TextChunk, 0, "a"), BlockStop(0),
        Chunk(TextChunk, 0, "b")];
            && KeptChunk(events, 1, TextChunk, 0, false) && KeptChunk(events, 3, TextChunk, 0, false)
            && Where(events, 1, false) == Where(events, 3, false)
  {
    var a, b, c := ToolUseStart(0, "id", "Bash", ""), Chunk(TextChunk, 0, "a"), BlockStop(0);
    var events := [a, b, c, Chunk(TextChunk, 0, "b")];
    assert events[..1] == [a] && events[..2] == [a, b] && events[..3] == [a, b, c];
    StaysOutside(a, b, c);
    assert SlotAt(events[..2], 0, false).tool by {
      SlotStep(events, 0, 0, false);
      SlotStep(events, 1, 0, false);
      assert events[..0] == [];
    }
    ChunksShareSegmentIff(events, 1, 3, TextChunk, 0, false);
  }

  lemma StaysOutside(a: Event, b: Event, c: Event)
    requires TaskId(a).None? && TaskId(b).None? && TaskId(c).None? && !a.ResultEvent? && !b.ResultEvent?
        && !c.ResultEvent?
    ensures Outside([], false) && Outside([a], false) && Outside([a, b], false) && Outside([a, b, c], false)
  {
    assert [] + [a] == [a] && [a] + [b] == [a, b] && [a, b] + [c] == [a, b, c];
    RunStack([], a, false);
    RunStack([a], b, false);
    RunStack([a, b], c, false);
  }
}
