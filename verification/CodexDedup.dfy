/** Duplicate suppression of cli/adapters/codex.py. The same output item can reach the parser as
    streamed deltas, as output_item.done, and in the response.completed replay; one set of
    string keys, shared by all responses of a run, decides what is emitted. */
module CodexDedup {
  import opened Base
  import opened Strings

  /** An output item: str(type), its usable "id" or "call_id" (the first non-empty string), and
      its content. */
  datatype Item = Item(kind: string, id: Option<string>, content: nat)

  /** Events as far as they matter here; an id or index of the wrong type counts as absent. */
  datatype Event =
    | TextDelta(itemId: Option<string>, index: Option<int>, responseId: Option<string>)
    | ItemDone(item: Option<Item>, index: Option<int>, responseId: Option<string>)
    | Completed(output: seq<Option<Item>>, responseId: Option<string>)
    | ResponseFailed
    | OtherEvent

  /** What became of a sighting; an emitted item is at position `at` of the output. */
  datatype How = Streamed | Emitted(at: nat) | Suppressed

  /** One sighting, by event number `event`: of a message at an output index, in scope number `scope`,
      or of anything else by its type and id. */
  datatype Mark =
    | AtIndex(event: nat, scope: nat, index: int, how: How)
    | ById(event: nat, kind: string, id: string, how: How)

  /** The parse state (first three fields), what was emitted, and the records the theorems speak
      about: how many events were handled, the scopes opened, the ids they were opened under, and all
      sightings. */
  datatype State = State(
    seen: set<string>,
    scope: Option<string>,
    nextImplicit: nat,
    output: seq<Item>,
    handled: nat,
    scopes: seq<string>,
    names: seq<Option<string>>,
    marks: seq<Mark>)

  const START := State({}, None, 0, [], 0, [], [], [])

  const INDEX_PREFIX := "message_output_index"

  function IndexKey(scope: string, index: int): string {
    INDEX_PREFIX + ":" + scope + ":" + IntText(index)
  }

  function TypeKey(kind: string, id: string): string {
    kind + ":" + id
  }

  function ItemKey(item: Item, scope: string, index: Option<int>): Option<string> {
    if item.kind == "message" && index.Some? then Some(IndexKey(scope, index.value))
    else if item.id.Some? then Some(TypeKey(item.kind, item.id.value))
    else None
  }

  function NewScope(responseId: Option<string>, nextImplicit: nat): string {
    if responseId.Some? then "response:" + responseId.value else "implicit:" + NatText(nextImplicit)
  }

  function WithScope(s: State, responseId: Option<string>): (s': State)
    ensures s'.scope.Some? && s'.handled == s.handled
    ensures s'.seen == s.seen && s'.output == s.output && s'.marks == s.marks
  {
    if s.scope.Some? then s
    else
      var scope := NewScope(responseId, s.nextImplicit);
      s.(scope := Some(scope),
         nextImplicit := if responseId.Some? then s.nextImplicit else s.nextImplicit + 1,
         scopes := s.scopes + [scope],
         names := s.names + [responseId])
  }

  function Current(s: State): nat {
    if |s.scopes| == 0 then 0 else |s.scopes| - 1
  }

  /** The key a mark stands for. */
  function KeyOf(scopes: seq<string>, m: Mark): string {
    match m
    case AtIndex(_, scope, index, _) => if scope < |scopes| then IndexKey(scopes[scope], index) else ""
    case ById(_, kind, id, _) => TypeKey(kind, id)
  }

  /** How an item with a key is marked when it is offered now. */
  function NewMark(s: State, item: Item, index: Option<int>, how: How): Option<Mark> {
    if item.kind == "message" && index.Some? then Some(AtIndex(s.handled, Current(s), index.value, how))
    else if item.id.Some? then Some(ById(s.handled, item.kind, item.id.value, how))
    else None
  }

  /** _mark_response_item_unseen, then the item itself when it was unseen. */
  function Offer(s: State, item: Item, index: Option<int>): (s': State)
    requires s.scope.Some?
    ensures s'.scope == s.scope
  {
    var key := ItemKey(item, s.scope.value, index);
    var unseen := key.None? || key.value !in s.seen;
    var mark := NewMark(s, item, index, if unseen then Emitted(|s.output|) else Suppressed);
    s.(seen := if key.Some? then s.seen + {key.value} else s.seen,
       output := if unseen then s.output + [item] else s.output,
       marks := if mark.Some? then s.marks + [mark.value] else s.marks)
  }

  function OfferAll(s: State, output: seq<Option<Item>>): (s': State)
    requires s.scope.Some?
    ensures s'.scope == s.scope
  {
    if output == [] then s
    else
      var n := |output| - 1;
      var before := OfferAll(s, output[..n]);
      if output[n].Some? then Offer(before, output[n].value, Some(n)) else before
  }

  function SawDelta(s: State, itemId: Option<string>): State {
    if itemId.None? then s
    else s.(seen := s.seen + {TypeKey("message", itemId.value)},
            marks := s.marks + [ById(s.handled, "message", itemId.value, Streamed)])
  }

  function SawIndex(s: State, index: int): State
    requires s.scope.Some?
  {
    s.(seen := s.seen + {IndexKey(s.scope.value, index)},
       marks := s.marks + [AtIndex(s.handled, Current(s), index, Streamed)])
  }

  function Finish(s: State): State {
    s.(scope := None)
  }

  function Step(s: State, e: Event): State {
    Tick(Handle(s, e))
  }

  function Tick(s: State): State {
    s.(handled := s.handled + 1)
  }

  function Handle(s: State, e: Event): State {
    match e
    case TextDelta(itemId, index, responseId) =>
      var s1 := SawDelta(s, itemId);
      if index.Some? then SawIndex(WithScope(s1, responseId), index.value) else s1
    case ItemDone(Some(item), index, responseId) => Offer(WithScope(s, responseId), item, index)
    case ItemDone(None, _, _) => s
    case Completed(output, responseId) => Finish(OfferAll(WithScope(s, responseId), output))
    case ResponseFailed => Finish(s)
    case OtherEvent => s
  }

  function Run(events: seq<Event>): State {
    if events == [] then START else Step(Run(events[..|events| - 1]), events[|events| - 1])
  }

  // The keys do not collide.

  /** (scope, index) can be read back from its key, even when ids contain colons: an index has
      no colon, so the last one separates it. */
  lemma IndexKeyInjective(scope1: string, index1: int, scope2: string, index2: int)
    requires IndexKey(scope1, index1) == IndexKey(scope2, index2)
    ensures scope1 == scope2 && index1 == index2
  {
    var t1, t2 := IntText(index1), IntText(index2);
    assert ':' !in t1 by { if ':' in t1 { IntTextHas(index1, ':'); } }
    assert ':' !in t2 by { if ':' in t2 { IntTextHas(index2, ':'); } }
    var p := INDEX_PREFIX + ":";
    assert IndexKey(scope1, index1) == (p + scope1) + [':'] + t1;
    assert IndexKey(scope2, index2) == (p + scope2) + [':'] + t2;
    LastSplitUnique(p + scope1, t1, p + scope2, t2, ':');
    assert scope1 == (p + scope1)[|p|..] == (p + scope2)[|p|..] == scope2;
    IntTextInjective(index1, index2);
  }

  /** Two (type, id) pairs share a key: they are equal, or a colon inside one type moved over from
      the other's id. */
  predicate SameTyped(kind1: string, id1: string, kind2: string, id2: string) {
    || (kind1 == kind2 && id1 == id2)
    || (kind1 + ":" <= kind2 && id1 == kind2[|kind1| + 1..] + ":" + id2)
    || (kind2 + ":" <= kind1 && id2 == kind1[|kind2| + 1..] + ":" + id1)
  }

  lemma ShiftedKey(kind1: string, id1: string, kind2: string, id2: string)
    requires |kind1| < |kind2|
    ensures TypeKey(kind1, id1) == TypeKey(kind2, id2)
       <==> kind1 + ":" <= kind2 && id1 == kind2[|kind1| + 1..] + ":" + id2
  {
    var n := |kind1| + 1;
    var s := TypeKey(kind2, id2);
    assert TypeKey(kind1, id1) == (kind1 + ":") + id1;
    assert s[..n] == kind2[..n] && s[n..] == kind2[n..] + ":" + id2;
    assert s == s[..n] + s[n..];
  }

  lemma TypeKeysEqualIff(kind1: string, id1: string, kind2: string, id2: string)
    ensures TypeKey(kind1, id1) == TypeKey(kind2, id2) <==> SameTyped(kind1, id1, kind2, id2)
  {
    if |kind1| < |kind2| {
      ShiftedKey(kind1, id1, kind2, id2);
    } else if |kind2| < |kind1| {
      ShiftedKey(kind2, id2, kind1, id1);
    } else {
      var n := |kind1|;
      assert TypeKey(kind1, id1)[..n] == kind1 && TypeKey(kind1, id1)[n + 1..] == id1;
      assert TypeKey(kind2, id2)[..n] == kind2 && TypeKey(kind2, id2)[n + 1..] == id2;
    }
  }

  /** The type is the index prefix, alone or with a colon and more; nothing else can be mistaken. */
  predicate ForeignType(kind: string) {
    kind == INDEX_PREFIX || INDEX_PREFIX + ":" <= kind
  }

  /** A type and an id that spell the message at this scope and index. */
  predicate Forges(kind: string, id: string, scope: string, index: int) {
    var rest := scope + ":" + IntText(index);
    || (kind == INDEX_PREFIX && id == rest)
    || (INDEX_PREFIX + ":" <= kind && rest == kind[|INDEX_PREFIX| + 1..] + ":" + id)
  }

  /** A type:id key is mistaken for a message index key exactly when type and id spell it. */
  lemma TypeKeyForgesIff(kind: string, id: string, scope: string, index: int)
    ensures TypeKey(kind, id) == IndexKey(scope, index) <==> Forges(kind, id, scope, index)
  {
    var rest := scope + ":" + IntText(index);
    Regroup(INDEX_PREFIX, ":", scope, ":", IntText(index));
    TypeKeysEqualIff(kind, id, INDEX_PREFIX, rest);
    NotBefore(kind, INDEX_PREFIX);
  }

  lemma NotBefore(kind: string, colonFree: string)
    requires ':' !in colonFree
    ensures !(kind + ":" <= colonFree)
  {
    assert (kind + ":")[|kind|] == ':';
  }

  /** And such a type does collide: a foreign item can silence a message. */
  lemma ForeignTypeSilencesMessage()
    ensures var s := Run([ItemDone(Some(Item("message_output_index", Some("response:r:0"), 1)), None, Some("r")),
                          ItemDone(Some(Item("message", None, 2)), Some(0), Some("r"))]);
            s.output == [Item("message_output_index", Some("response:r:0"), 1)]
  {
    var a := ItemDone(Some(Item("message_output_index", Some("response:r:0"), 1)), None, Some("r"));
    var b := ItemDone(Some(Item("message", None, 2)), Some(0), Some("r"));
    assert [a, b][..1] == [a] && [a][..0] == [];
    assert Run([]) == START;
    var s1 := Step(START, a);
    assert Run([a]) == s1;
    assert "response:r" == NewScope(Some("r"), 0);
    assert IntText(0) == "0";
    assert IndexKey("response:r", 0) == TypeKey("message_output_index", "response:r:0");
  }

  // What the marks say about the seen set.

  /** The key was marked among the first n sightings. */
  ghost predicate Sighted(s: State, key: string, n: nat)
    requires n <= |s.marks|
  {
    exists m :: 0 <= m < n && KeyOf(s.scopes, s.marks[m]) == key
  }

  ghost predicate SeenMatchesMarks(s: State) {
    forall key :: key in s.seen <==> Sighted(s, key, |s.marks|)
  }

  ghost predicate ScopesAgree(s: State) {
    && |s.names| == |s.scopes|
    && (s.scope.Some? ==> |s.scopes| > 0 && s.scope.value == s.scopes[|s.scopes| - 1])
    && (forall m :: 0 <= m < |s.marks| && s.marks[m].AtIndex? ==> s.marks[m].scope < |s.scopes|)
  }

  /** Each offer was judged by the earlier sightings of its key. */
  ghost predicate Judged(s: State) {
    forall n :: 0 <= n < |s.marks| && s.marks[n].how != Streamed ==>
      (s.marks[n].how.Emitted? <==> !Sighted(s, KeyOf(s.scopes, s.marks[n]), n))
  }

  ghost predicate Good(s: State) {
    ScopesAgree(s) && SeenMatchesMarks(s) && Judged(s)
  }

  lemma SightedFrame(s: State, s': State, key: string, n: nat)
    requires ScopesAgree(s) && n <= |s.marks| && s.marks <= s'.marks && s.scopes <= s'.scopes
    ensures Sighted(s, key, n) <==> Sighted(s', key, n)
  {
    assert forall m :: 0 <= m < n ==>
      s'.marks[m] == s.marks[m] && KeyOf(s'.scopes, s'.marks[m]) == KeyOf(s.scopes, s.marks[m]);
    if Sighted(s, key, n) {
      var m :| 0 <= m < n && KeyOf(s.scopes, s.marks[m]) == key;
      assert KeyOf(s'.scopes, s'.marks[m]) == key;
    }
  }

  /** Opening and closing scopes changes nothing about what was sighted. */
  lemma ScopeMoved(s: State, s': State)
    requires Good(s) && s'.seen == s.seen && s'.marks == s.marks && s.scopes <= s'.scopes
    requires |s'.names| == |s'.scopes|
    requires s'.scope.Some? ==> |s'.scopes| > 0 && s'.scope.value == s'.scopes[|s'.scopes| - 1]
    ensures Good(s')
  {
    forall key, n: nat | n <= |s.marks|
      ensures Sighted(s, key, n) <==> Sighted(s', key, n)
    {
      SightedFrame(s, s', key, n);
    }
    assert forall n :: 0 <= n < |s.marks| ==> KeyOf(s'.scopes, s'.marks[n]) == KeyOf(s.scopes, s.marks[n]);
  }

  /** Recording one more sighting together with its key. */
  lemma MarkAdded(s: State, s': State, mark: Mark)
    requires Good(s) && s'.marks == s.marks + [mark] && s'.seen == s.seen + {KeyOf(s.scopes, mark)}
    requires s'.scopes == s.scopes && s'.names == s.names && s'.scope == s.scope
    requires mark.AtIndex? ==> mark.scope < |s.scopes|
    requires mark.how != Streamed ==> (mark.how.Emitted? <==> KeyOf(s.scopes, mark) !in s.seen)
    ensures Good(s')
  {
    forall key, n: nat | n <= |s.marks|
      ensures Sighted(s, key, n) <==> Sighted(s', key, n)
    {
      SightedFrame(s, s', key, n);
    }
    var last := |s.marks|;
    assert KeyOf(s'.scopes, s'.marks[last]) == KeyOf(s.scopes, mark);
    forall key
      ensures key in s'.seen <==> Sighted(s', key, |s'.marks|)
    {
      assert Sighted(s', key, |s'.marks|) <==> Sighted(s', key, last) || key == KeyOf(s.scopes, mark);
    }
  }

  lemma OfferGood(s: State, item: Item, index: Option<int>)
    requires Good(s) && s.scope.Some?
    ensures Good(Offer(s, item, index))
  {
    var s' := Offer(s, item, index);
    if ItemKey(item, s.scope.value, index).Some? {
      MarkAdded(s, s', s'.marks[|s.marks|]);
    } else {
      ScopeMoved(s, s');
    }
  }

  lemma {:induction false} OfferAllGood(s: State, output: seq<Option<Item>>)
    requires Good(s) && s.scope.Some?
    ensures Good(OfferAll(s, output))
  {
    if output != [] {
      var n := |output| - 1;
      OfferAllGood(s, output[..n]);
      if output[n].Some? {
        OfferGood(OfferAll(s, output[..n]), output[n].value, Some(n));
      }
    }
  }

  lemma DeltaGood(s: State, itemId: Option<string>, index: Option<int>, responseId: Option<string>)
    requires Good(s)
    ensures Good(Handle(s, TextDelta(itemId, index, responseId)))
  {
    var s1 := SawDelta(s, itemId);
    if itemId.Some? {
      MarkAdded(s, s1, ById(s.handled, "message", itemId.value, Streamed));
    }
    if index.Some? {
      var s2 := WithScope(s1, responseId);
      ScopeMoved(s1, s2);
      MarkAdded(s2, SawIndex(s2, index.value), AtIndex(s2.handled, Current(s2), index.value, Streamed));
    }
  }

  lemma StepGood(s: State, e: Event)
    requires Good(s)
    ensures Good(Step(s, e))
  {
    match e {
      case TextDelta(itemId, index, responseId) => DeltaGood(s, itemId, index, responseId);
      case ItemDone(Some(item), index, responseId) =>
        ScopeMoved(s, WithScope(s, responseId));
        OfferGood(WithScope(s, responseId), item, index);
      case Completed(output, responseId) =>
        ScopeMoved(s, WithScope(s, responseId));
        OfferAllGood(WithScope(s, responseId), output);
        ScopeMoved(OfferAll(WithScope(s, responseId), output), Handle(s, e));
      case ResponseFailed => ScopeMoved(s, Finish(s));
      case _ =>
    }
    ScopeMoved(Handle(s, e), Step(s, e));
  }

  lemma {:induction false} RunsGood(events: seq<Event>)
    ensures Good(Run(events))
  {
    if events != [] {
      RunsGood(events[..|events| - 1]);
      StepGood(Run(events[..|events| - 1]), events[|events| - 1]);
    }
  }

  // Scopes name responses.

  /** Explicit scopes carry their response id; implicit ones carry a number used once. */
  ghost predicate NamesAgree(s: State) {
    && |s.names| == |s.scopes|
    && (forall a :: 0 <= a < |s.scopes| && s.names[a].Some? ==> s.scopes[a] == "response:" + s.names[a].value)
    && (forall a :: 0 <= a < |s.scopes| && s.names[a].None? ==>
          exists k :: 0 <= k < s.nextImplicit && s.scopes[a] == "implicit:" + NatText(k))
    && (forall a, b :: 0 <= a < b < |s.scopes| && s.names[a].None? && s.names[b].None? ==> s.scopes[a] != s.scopes[b])
  }

  lemma WithScopeNames(s: State, responseId: Option<string>)
    requires NamesAgree(s)
    ensures NamesAgree(WithScope(s, responseId))
  {
    var s' := WithScope(s, responseId);
    if s.scope.None? && responseId.None? {
      var last := |s.scopes|;
      assert s'.scopes[last] == "implicit:" + NatText(s.nextImplicit);
      forall a | 0 <= a < last && s.names[a].None?
        ensures s'.scopes[a] != s'.scopes[last]
      {
        var k :| 0 <= k < s.nextImplicit && s.scopes[a] == "implicit:" + NatText(k);
        var tag := "implicit:";
        if tag + NatText(k) == tag + NatText(s.nextImplicit) {
          assert NatText(k) == (tag + NatText(k))[|tag|..] == NatText(s.nextImplicit);
          NatTextInjective(k, s.nextImplicit);
        }
      }
    }
  }

  lemma {:induction false} OfferAllNames(s: State, output: seq<Option<Item>>)
    requires s.scope.Some?
    ensures OfferAll(s, output).scopes == s.scopes && OfferAll(s, output).names == s.names
    ensures OfferAll(s, output).nextImplicit == s.nextImplicit
  {
    if output != [] {
      OfferAllNames(s, output[..|output| - 1]);
    }
  }

  ghost predicate SameNames(s: State, s': State) {
    s'.scopes == s.scopes && s'.names == s.names && s'.nextImplicit == s.nextImplicit
  }

  lemma NamesFrame(s: State, s': State)
    requires NamesAgree(s) && SameNames(s, s')
    ensures NamesAgree(s')
  {
  }

  /** An event either leaves the scopes alone or opens one. */
  lemma StepNames(s: State, e: Event)
    requires NamesAgree(s)
    ensures NamesAgree(Step(s, e))
  {
    if e.Completed? {
      OfferAllNames(WithScope(s, e.responseId), e.output);
    }
    if Touches(e) {
      WithScopeNames(s, CarriedId(e));
      NamesFrame(WithScope(s, CarriedId(e)), Step(s, e));
    } else {
      NamesFrame(s, Step(s, e));
    }
  }

  lemma {:induction false} RunsName(events: seq<Event>)
    ensures NamesAgree(Run(events))
  {
    if events != [] {
      RunsName(events[..|events| - 1]);
      StepNames(Run(events[..|events| - 1]), events[|events| - 1]);
    }
  }

  /** Two scopes of a run are the same string iff both were opened under one response id; scopes
      opened without one are never used again. */
  lemma ScopesSharedIff(events: seq<Event>, a: nat, b: nat)
    requires a < b < |Run(events).scopes| && |Run(events).names| == |Run(events).scopes|
    ensures var s := Run(events);
            s.scopes[a] == s.scopes[b] <==> s.names[a].Some? && s.names[a] == s.names[b]
  {
    RunsName(events);
    NamedScopesSharedIff(Run(events), a, b);
  }

  lemma NamedScopesSharedIff(s: State, a: nat, b: nat)
    requires NamesAgree(s) && a < b < |s.scopes|
    ensures s.scopes[a] == s.scopes[b] <==> s.names[a].Some? && s.names[a] == s.names[b]
  {
    var tag := "response:";
    if s.names[a].Some? && s.names[b].Some? && s.scopes[a] == s.scopes[b] {
      var x, y := s.names[a].value, s.names[b].value;
      assert x == (tag + x)[|tag|..] == (tag + y)[|tag|..] == y;
    }
    if s.names[a].Some? != s.names[b].Some? {
      var i, r := if s.names[a].Some? then b else a, if s.names[a].Some? then a else b;
      var k :| 0 <= k < s.nextImplicit && s.scopes[i] == "implicit:" + NatText(k);
      assert s.scopes[i][0] == 'i' && s.scopes[r][0] == 'r';
    }
  }

  ghost predicate SameScope(s: State, a: nat, b: nat)
    requires |s.names| == |s.scopes|
  {
    a == b || (a < |s.names| && b < |s.names| && s.names[a].Some? && s.names[a] == s.names[b])
  }

  /** The two sightings count as the same: messages at one output index of one scope, two items
      whose type and id run together alike, or an item whose type and id spell the message. */
  ghost predicate Collides(s: State, a: Mark, b: Mark)
    requires |s.names| == |s.scopes|
    requires (a.AtIndex? ==> a.scope < |s.scopes|) && (b.AtIndex? ==> b.scope < |s.scopes|)
  {
    match (a, b)
    case (AtIndex(_, r, i, _), AtIndex(_, q, j, _)) => i == j && SameScope(s, r, q)
    case (AtIndex(_, r, i, _), ById(_, kind, id, _)) => Forges(kind, id, s.scopes[r], i)
    case (ById(_, kind, id, _), AtIndex(_, r, i, _)) => Forges(kind, id, s.scopes[r], i)
    case (ById(_, kind, id, _), ById(_, kind', id', _)) => SameTyped(kind, id, kind', id')
  }

  /** Some sighting so far collides with the mark. */
  ghost predicate HasCollision(s: State, mark: Mark)
    requires ScopesAgree(s) && (mark.AtIndex? ==> mark.scope < |s.scopes|)
  {
    exists m :: 0 <= m < |s.marks| && Collides(s, s.marks[m], mark)
  }

  lemma KeysEqualIff(s: State, a: Mark, b: Mark)
    requires NamesAgree(s)
    requires (a.AtIndex? ==> a.scope < |s.scopes|) && (b.AtIndex? ==> b.scope < |s.scopes|)
    ensures KeyOf(s.scopes, a) == KeyOf(s.scopes, b) <==> Collides(s, a, b)
  {
    match (a, b)
    case (AtIndex(_, r, i, _), AtIndex(_, q, j, _)) =>
      if KeyOf(s.scopes, a) == KeyOf(s.scopes, b) {
        IndexKeyInjective(s.scopes[r], i, s.scopes[q], j);
      }
      if r != q {
        NamedScopesSharedIff(s, if r < q then r else q, if r < q then q else r);
      }
    case (AtIndex(_, r, i, _), ById(_, kind, id, _)) => TypeKeyForgesIff(kind, id, s.scopes[r], i);
    case (ById(_, kind, id, _), AtIndex(_, r, i, _)) => TypeKeyForgesIff(kind, id, s.scopes[r], i);
    case (ById(_, kind, id, _), ById(_, kind', id', _)) => TypeKeysEqualIff(kind, id, kind', id');
  }

  /** The theorem, for every run and without any assumption on types and ids: an offered item is
      emitted iff no earlier sighting collides with it. */
  lemma EmittedIffNoCollision(events: seq<Event>, n: nat)
    requires n < |Run(events).marks| && Run(events).marks[n].how != Streamed
    ensures var s := Run(events);
            && ScopesAgree(s)
            && (s.marks[n].how.Emitted? <==> forall m :: 0 <= m < n ==> !Collides(s, s.marks[m], s.marks[n]))
  {
    RunsGood(events);
    RunsName(events);
    var s := Run(events);
    forall m | 0 <= m < n
      ensures KeyOf(s.scopes, s.marks[m]) == KeyOf(s.scopes, s.marks[n]) <==> Collides(s, s.marks[m], s.marks[n])
    {
      KeysEqualIff(s, s.marks[m], s.marks[n]);
    }
    assert s.marks[n].how.Emitted? <==> !Sighted(s, KeyOf(s.scopes, s.marks[n]), n);
  }

  ghost predicate PlainItem(item: Option<Item>) {
    item.Some? ==> !ForeignType(item.value.kind)
  }

  ghost predicate PlainEvent(e: Event) {
    match e
    case ItemDone(item, _, _) => PlainItem(item)
    case Completed(output, _) => forall i :: 0 <= i < |output| ==> PlainItem(output[i])
    case _ => true
  }

  ghost predicate Plain(events: seq<Event>) {
    forall i :: 0 <= i < |events| ==> PlainEvent(events[i])
  }

  ghost predicate PlainMarks(marks: seq<Mark>) {
    forall m :: 0 <= m < |marks| && marks[m].ById? ==> !ForeignType(marks[m].kind)
  }

  lemma {:induction false} OfferAllPlain(s: State, output: seq<Option<Item>>)
    requires s.scope.Some? && PlainMarks(s.marks) && forall i :: 0 <= i < |output| ==> PlainItem(output[i])
    ensures PlainMarks(OfferAll(s, output).marks)
  {
    if output != [] {
      OfferAllPlain(s, output[..|output| - 1]);
      assert PlainItem(output[|output| - 1]);
    }
  }

  lemma {:induction false} RunsPlain(events: seq<Event>)
    requires Plain(events)
    ensures PlainMarks(Run(events).marks)
  {
    if events != [] {
      var before, e := events[..|events| - 1], events[|events| - 1];
      assert Plain(before) && PlainEvent(e);
      RunsPlain(before);
      if e.Completed? {
        OfferAllPlain(WithScope(Run(before), e.responseId), e.output);
      }
      assert !ForeignType("message");
    }
  }

  // Which events share a scope, read off the events alone. An open scope is kept whatever response
  // id the next event carries, until a response completes or fails.

  function CarriedId(e: Event): Option<string> {
    match e
    case TextDelta(_, _, responseId) => responseId
    case ItemDone(_, _, responseId) => responseId
    case Completed(_, responseId) => responseId
    case _ => None
  }

  /** The event asks for the current scope. */
  predicate Touches(e: Event) {
    (e.TextDelta? && e.index.Some?) || (e.ItemDone? && e.item.Some?) || e.Completed?
  }

  predicate Closes(e: Event) {
    e.Completed? || e.ResponseFailed?
  }

  predicate IsOpen(events: seq<Event>) {
    events != [] &&
    var before, e := events[..|events| - 1], events[|events| - 1];
    !Closes(e) && (Touches(e) || IsOpen(before))
  }

  predicate Opens(before: seq<Event>, e: Event) {
    Touches(e) && !IsOpen(before)
  }

  /** How many scopes the events opened. */
  function Opened(events: seq<Event>): nat {
    if events == [] then 0
    else
      var before, e := events[..|events| - 1], events[|events| - 1];
      Opened(before) + if Opens(before, e) then 1 else 0
  }

  /** The id under which the newest scope was opened. */
  function OpeningId(events: seq<Event>): Option<string> {
    if events == [] then None
    else
      var before, e := events[..|events| - 1], events[|events| - 1];
      if Opens(before, e) then CarriedId(e) else OpeningId(before)
  }

  ghost predicate NoneCloses(events: seq<Event>, t: nat, u: nat)
    requires u <= |events|
  {
    forall k :: t <= k < u ==> !Closes(events[k])
  }

  /** Events t and u use the same scope: nothing closed it in between, or the two scopes were opened
      under one id. */
  ghost predicate SharesScope(events: seq<Event>, t: nat, u: nat)
    requires t <= u < |events|
  {
    || NoneCloses(events, t, u)
    || (OpeningId(events[..t + 1]).Some? && OpeningId(events[..t + 1]) == OpeningId(events[..u + 1]))
  }

  /** The state's record of scopes is what the events say. */
  ghost predicate ScopesRead(s: State, events: seq<Event>) {
    && s.handled == |events| && |s.scopes| == |s.names| == Opened(events)
    && (s.scope.Some? <==> IsOpen(events))
    && (IsOpen(events) ==> s.names != [])
    && (s.names != [] ==> s.names[|s.names| - 1] == OpeningId(events))
  }

  lemma {:induction false} OfferAllScopes(s: State, output: seq<Option<Item>>)
    requires s.scope.Some?
    ensures var s' := OfferAll(s, output);
            && s'.handled == s.handled && s'.scopes == s.scopes && s'.names == s.names && s.marks <= s'.marks
            && forall m :: |s.marks| <= m < |s'.marks| && s'.marks[m].AtIndex? ==>
                 s'.marks[m].event == s.handled && s'.marks[m].scope == Current(s)
  {
    if output != [] {
      OfferAllScopes(s, output[..|output| - 1]);
    }
  }

  /** What one event does to scopes and marks. */
  lemma StepScopes(s: State, e: Event)
    ensures var s' := Step(s, e);
            && s'.handled == s.handled + 1 && s.marks <= s'.marks && s.names <= s'.names
            && (if Touches(e) && s.scope.None? then
                  s'.names == s.names + [CarriedId(e)] && |s'.scopes| == |s.scopes| + 1
                else s'.names == s.names && s'.scopes == s.scopes)
            && (s'.scope.Some? <==> !Closes(e) && (Touches(e) || s.scope.Some?))
            && forall m :: |s.marks| <= m < |s'.marks| && s'.marks[m].AtIndex? ==>
                 Touches(e) && s'.marks[m].event == s.handled && s'.marks[m].scope == Current(s')
  {
    if e.Completed? {
      OfferAllScopes(WithScope(s, e.responseId), e.output);
    }
  }

  lemma {:induction false} RunsReadScopes(events: seq<Event>)
    ensures ScopesRead(Run(events), events)
  {
    if events != [] {
      var before, e := events[..|events| - 1], events[|events| - 1];
      RunsReadScopes(before);
      StepScopes(Run(before), e);
    }
  }

  /** Each sighting of a message is dated by its event and numbered by the scopes opened until then,
      under the id that opened the last of them. */
  ghost predicate Dated(marks: seq<Mark>, names: seq<Option<string>>, events: seq<Event>) {
    && (forall m :: 0 <= m < |marks| && marks[m].AtIndex? ==>
          && marks[m].event < |events| && Touches(events[marks[m].event])
          && marks[m].scope + 1 == Opened(events[..marks[m].event + 1]) <= |names|
          && names[marks[m].scope] == OpeningId(events[..marks[m].event + 1]))
    && (forall m, n :: 0 <= m < n < |marks| && marks[m].AtIndex? && marks[n].AtIndex? ==>
          marks[m].event <= marks[n].event)
  }

  lemma DatedLater(marks: seq<Mark>, names: seq<Option<string>>, names': seq<Option<string>>, events: seq<Event>,
      e: Event)
    requires Dated(marks, names, events) && names <= names'
    ensures Dated(marks, names', events + [e])
  {
    forall m | 0 <= m < |marks| && marks[m].AtIndex?
      ensures (events + [e])[..marks[m].event + 1] == events[..marks[m].event + 1]
    {
    }
  }

  /** The mark was made by the last event. */
  ghost predicate DatedNow(mark: Mark, names: seq<Option<string>>, before: seq<Event>, e: Event) {
    && Touches(e) && mark.AtIndex? && mark.event == |before|
    && mark.scope + 1 == Opened(before + [e]) == |names| && names[mark.scope] == OpeningId(before + [e])
  }

  lemma NewMarksDated(s: State, e: Event, before: seq<Event>, m: nat)
    requires ScopesRead(s, before) && ScopesRead(Step(s, e), before + [e])
    requires |s.marks| <= m < |Step(s, e).marks| && Step(s, e).marks[m].AtIndex?
    ensures DatedNow(Step(s, e).marks[m], Step(s, e).names, before, e)
  {
    StepScopes(s, e);
  }

  lemma DatedGrows(marks: seq<Mark>, more: seq<Mark>, names: seq<Option<string>>, before: seq<Event>, e: Event)
    requires Dated(marks, names, before + [e]) && marks <= more
    requires forall m :: |marks| <= m < |more| && more[m].AtIndex? ==> DatedNow(more[m], names, before, e)
    ensures Dated(more, names, before + [e])
  {
    var events := before + [e];
    assert events[..|before| + 1] == events && events[|before|] == e;
    forall m | 0 <= m < |more| && more[m].AtIndex?
      ensures && more[m].event < |events| && Touches(events[more[m].event])
              && more[m].scope + 1 == Opened(events[..more[m].event + 1]) <= |names|
              && names[more[m].scope] == OpeningId(events[..more[m].event + 1])
    {
      if m < |marks| {
        assert more[m] == marks[m];
      } else {
        assert DatedNow(more[m], names, before, e);
      }
    }
  }

  lemma StepDated(s: State, e: Event, before: seq<Event>)
    requires Dated(s.marks, s.names, before) && ScopesRead(s, before) && ScopesRead(Step(s, e), before + [e])
    ensures Dated(Step(s, e).marks, Step(s, e).names, before + [e])
  {
    var s' := Step(s, e);
    StepScopes(s, e);
    DatedLater(s.marks, s.names, s'.names, before, e);
    forall m | |s.marks| <= m < |s'.marks| && s'.marks[m].AtIndex?
      ensures DatedNow(s'.marks[m], s'.names, before, e)
    {
      NewMarksDated(s, e, before, m);
    }
    DatedGrows(s.marks, s'.marks, s'.names, before, e);
  }

  lemma {:induction false} RunsDated(events: seq<Event>)
    ensures Dated(Run(events).marks, Run(events).names, events)
  {
    if events != [] {
      var before, e := events[..|events| - 1], events[|events| - 1];
      RunsDated(before);
      RunsReadScopes(before);
      RunsReadScopes(events);
      assert events == before + [e];
      StepDated(Run(before), e, before);
    }
  }

  /** Between two touching events the same scope stays open iff nothing closes it. */
  lemma {:induction false} ScopeKeptIff(events: seq<Event>, t: nat, v: nat)
    requires t < v <= |events| && Touches(events[t])
    ensures NoneCloses(events, t, v) ==> IsOpen(events[..v]) && Opened(events[..v]) == Opened(events[..t + 1])
    ensures Opened(events[..t + 1]) <= Opened(events[..v]) && Opened(events[..t + 1]) > 0
    ensures !NoneCloses(events, t, v) && IsOpen(events[..v]) ==> Opened(events[..t + 1]) < Opened(events[..v])
    decreases v
  {
    assert events[..v][..v - 1] == events[..v - 1] && events[..v][v - 1] == events[v - 1];
    if v == t + 1 {
      OpenedMeansOne(events[..t]);
    } else {
      ScopeKeptIff(events, t, v - 1);
    }
  }

  lemma {:induction false} OpenedMeansOne(events: seq<Event>)
    ensures IsOpen(events) ==> Opened(events) > 0
  {
    if events != [] {
      OpenedMeansOne(events[..|events| - 1]);
    }
  }

  lemma NumbersEqualIff(events: seq<Event>, t: nat, u: nat)
    requires t <= u < |events| && Touches(events[t]) && Touches(events[u])
    ensures Opened(events[..t + 1]) == Opened(events[..u + 1]) <==> NoneCloses(events, t, u)
  {
    if t < u {
      ScopeKeptIff(events, t, u);
      assert events[..u + 1][..u] == events[..u] && events[..u + 1][u] == events[u];
    }
  }

  lemma MarkIsDated(events: seq<Event>, m: nat)
    requires m < |Run(events).marks| && Run(events).marks[m].AtIndex?
    ensures var s := Run(events); var t := s.marks[m].event;
            && t < |events| && Touches(events[t]) && s.marks[m].scope < |s.names|
            && s.marks[m].scope + 1 == Opened(events[..t + 1])
            && s.names[s.marks[m].scope] == OpeningId(events[..t + 1])
  {
    RunsDated(events);
  }

  /** Two sightings are in the same scope iff their events share it. */
  lemma SameScopeIff(events: seq<Event>, m: nat, n: nat)
    requires m < n < |Run(events).marks| && Run(events).marks[m].AtIndex? && Run(events).marks[n].AtIndex?
    ensures var s := Run(events);
            && |s.names| == |s.scopes| && s.marks[m].event <= s.marks[n].event < |events|
            && (SameScope(s, s.marks[m].scope, s.marks[n].scope)
                <==> SharesScope(events, s.marks[m].event, s.marks[n].event))
  {
    MarkIsDated(events, m);
    MarkIsDated(events, n);
    RunsReadScopes(events);
    var t, u := Run(events).marks[m].event, Run(events).marks[n].event;
    assert t <= u by {
      RunsDated(events);
    }
    NumberedScopesIff(Run(events), events, Run(events).marks[m].scope, Run(events).marks[n].scope, t, u);
  }

  lemma NumberedScopesIff(s: State, events: seq<Event>, a: nat, b: nat, t: nat, u: nat)
    requires |s.names| == |s.scopes| && a < |s.names| && b < |s.names|
    requires t <= u < |events| && Touches(events[t]) && Touches(events[u])
    requires a + 1 == Opened(events[..t + 1]) && s.names[a] == OpeningId(events[..t + 1])
    requires b + 1 == Opened(events[..u + 1]) && s.names[b] == OpeningId(events[..u + 1])
    ensures SameScope(s, a, b) <==> SharesScope(events, t, u)
  {
    NumbersEqualIff(events, t, u);
  }

  /** Unless some item's type is the index prefix, alone or followed by a colon: a message offered at
      an output index is emitted iff no earlier event that shares its scope sighted that index,
      streamed or offered. */
  lemma EmittedIffFirstSighting(events: seq<Event>, n: nat)
    requires Plain(events) && n < |Run(events).marks|
    requires Run(events).marks[n].AtIndex? && Run(events).marks[n].how != Streamed
    ensures var s := Run(events);
            && Dated(s.marks, s.names, events)
            && (s.marks[n].how.Emitted? <==>
                  forall m :: 0 <= m < n && s.marks[m].AtIndex? && s.marks[m].index == s.marks[n].index ==>
                    !SharesScope(events, s.marks[m].event, s.marks[n].event))
  {
    EmittedIffNoCollision(events, n);
    RunsPlain(events);
    RunsDated(events);
    var s := Run(events);
    assert forall m :: 0 <= m < n && s.marks[m].ById? ==> !Collides(s, s.marks[m], s.marks[n]);
    forall m | 0 <= m < n && s.marks[m].AtIndex?
      ensures SameScope(s, s.marks[m].scope, s.marks[n].scope)
          <==> SharesScope(events, s.marks[m].event, s.marks[n].event)
    {
      SameScopeIff(events, m, n);
    }
  }

  /** The message of sighting n was dropped, and sighting m is a reason. */
  ghost predicate Silences(s: State, m: nat, n: nat)
    requires ScopesAgree(s) && m < n < |s.marks|
  {
    s.marks[n].how == Suppressed && Collides(s, s.marks[m], s.marks[n])
  }

  /** When one response silences another: whatever ids their events carry, a sighting silences a later
      offer at its index iff the two events share a scope. */
  lemma OtherResponseSilencesIff(events: seq<Event>, m: nat, n: nat)
    requires m < n < |Run(events).marks| && Run(events).marks[m].AtIndex? && Run(events).marks[n].AtIndex?
    requires Run(events).marks[m].index == Run(events).marks[n].index && Run(events).marks[n].how != Streamed
    ensures var s := Run(events);
            && ScopesAgree(s) && s.marks[m].event <= s.marks[n].event < |events|
            && (Silences(s, m, n) <==> SharesScope(events, s.marks[m].event, s.marks[n].event))
  {
    EmittedIffNoCollision(events, n);
    SameScopeIff(events, m, n);
  }

  /** That does happen between different responses: after a response that neither completed nor
      failed, the next one's message is lost. */
  lemma UnclosedResponseSilencesNext()
    ensures Run([TextDelta(None, Some(0), Some("r1")), OtherEvent,
                 ItemDone(Some(Item("message", Some("m2"), 7)), Some(0), Some("r2"))]).output == []
  {
    var a, b := TextDelta(None, Some(0), Some("r1")), OtherEvent;
    var c := ItemDone(Some(Item("message", Some("m2"), 7)), Some(0), Some("r2"));
    assert [a, b, c][..2] == [a, b] && [a, b][..1] == [a] && [a][..0] == [];
    assert Run([]) == START;
    var scope := NewScope(Some("r1"), 0);
    assert Run([a]).scope == Some(scope) && Run([a]).seen == {IndexKey(scope, 0)} && Run([a]).output == [];
    assert Run([a, b]) == Tick(Run([a]));
  }

  /** The response id carried by event number t. */
  function IdAt(events: seq<Event>, t: nat): Option<string> {
    if t < |events| then CarriedId(events[t]) else None
  }

  /** Every scope is closed before an event carries another id. */
  ghost predicate ClosesBetweenIds(events: seq<Event>) {
    forall t, u :: 0 <= t < u < |events| && Touches(events[t]) && Touches(events[u]) && NoneCloses(events, t, u)
                   && CarriedId(events[t]).Some? && CarriedId(events[u]).Some? ==>
      CarriedId(events[t]) == CarriedId(events[u])
  }

  /** The event that opened the scope which event t uses. */
  lemma {:induction false} OpenerOf(events: seq<Event>, t: nat, v: nat) returns (o: nat)
    requires t < |events| && v <= t && Touches(events[t]) && NoneCloses(events, v, t)
    requires v == t || IsOpen(events[..v + 1])
    ensures o <= t && Touches(events[o]) && NoneCloses(events, o, t)
        && CarriedId(events[o]) == OpeningId(events[..v + 1])
    decreases v
  {
    assert events[..v + 1][..v] == events[..v] && events[..v + 1][v] == events[v];
    if Opens(events[..v], events[v]) {
      o := v;
    } else {
      assert v > 0 && IsOpen(events[..v]);
      assert events[..v][v - 1] == events[v - 1];
      o := OpenerOf(events, t, v - 1);
    }
  }

  /** In such a stream an event with an id uses a scope opened under that id, or under none. */
  lemma OpenedUnderOwnId(events: seq<Event>, t: nat)
    requires ClosesBetweenIds(events) && t < |events| && Touches(events[t]) && CarriedId(events[t]).Some?
    ensures OpeningId(events[..t + 1]).Some? ==> OpeningId(events[..t + 1]) == CarriedId(events[t])
  {
    var o := OpenerOf(events, t, t);
  }

  /** The documented behaviour, for streams that close each response before another id appears: other
      responses never silence a message. */
  lemma OtherResponsesNeverSilence(events: seq<Event>, m: nat, n: nat)
    requires ClosesBetweenIds(events)
    requires m < n < |Run(events).marks| && Run(events).marks[m].AtIndex? && Run(events).marks[n].AtIndex?
    requires IdAt(events, Run(events).marks[m].event).Some? && IdAt(events, Run(events).marks[n].event).Some?
    requires IdAt(events, Run(events).marks[m].event) != IdAt(events, Run(events).marks[n].event)
    ensures var s := Run(events); ScopesAgree(s) && !Silences(s, m, n)
  {
    RunsGood(events);
    SameScopeIff(events, m, n);
    MarkIsDated(events, m);
    MarkIsDated(events, n);
    DifferentIdsApart(events, Run(events).marks[m].event, Run(events).marks[n].event);
  }

  lemma DifferentIdsApart(events: seq<Event>, t: nat, u: nat)
    requires ClosesBetweenIds(events) && t <= u < |events| && Touches(events[t]) && Touches(events[u])
    requires CarriedId(events[t]).Some? && CarriedId(events[u]).Some? && CarriedId(events[t]) != CarriedId(events[u])
    ensures !SharesScope(events, t, u)
  {
    OpenedUnderOwnId(events, t);
    OpenedUnderOwnId(events, u);
  }

  ghost predicate AllNamed(events: seq<Event>) {
    forall t :: 0 <= t < |events| && Touches(events[t]) ==> CarriedId(events[t]).Some?
  }

  /** And when every event carries its response's id, a message is emitted iff its index was not
      sighted before in that response: at most once, not at all after its deltas, otherwise once. */
  lemma EmittedOncePerResponse(events: seq<Event>, n: nat)
    requires Plain(events) && ClosesBetweenIds(events) && AllNamed(events) && n < |Run(events).marks|
    requires Run(events).marks[n].AtIndex? && Run(events).marks[n].how != Streamed
    ensures var s := Run(events);
            (s.marks[n].how.Emitted? <==>
               forall m :: 0 <= m < n && s.marks[m].AtIndex? && s.marks[m].index == s.marks[n].index ==>
                 IdAt(events, s.marks[m].event) != IdAt(events, s.marks[n].event))
  {
    EmittedIffFirstSighting(events, n);
    var s := Run(events);
    forall m | 0 <= m < n && s.marks[m].AtIndex?
      ensures SharesScope(events, s.marks[m].event, s.marks[n].event)
         <==> IdAt(events, s.marks[m].event) == IdAt(events, s.marks[n].event)
    {
      NamedScopeIff(events, s.marks[m].event, s.marks[n].event);
    }
  }

  lemma NamedScopeIff(events: seq<Event>, t: nat, u: nat)
    requires ClosesBetweenIds(events) && AllNamed(events) && t <= u < |events| && Touches(events[t])
        && Touches(events[u])
    ensures SharesScope(events, t, u) <==> CarriedId(events[t]) == CarriedId(events[u])
  {
    OpenedUnderOwnId(events, t);
    OpenedUnderOwnId(events, u);
    var o := OpenerOf(events, t, t);
    var p := OpenerOf(events, u, u);
  }

  /** What an offer adds, by item-done or in the replay: the item, unless it has a key and an
      earlier sighting collides with it. Items without a key are always emitted. */
  lemma OfferEmitsIff(s: State, item: Item, index: Option<int>)
    requires Good(s) && NamesAgree(s) && s.scope.Some?
    ensures var mark := NewMark(s, item, index, Streamed);
            Offer(s, item, index).output
            == s.output + if mark.Some? && HasCollision(s, mark.value) then [] else [item]
  {
    var mark := NewMark(s, item, index, Streamed);
    if mark.Some? {
      forall m | 0 <= m < |s.marks|
        ensures KeyOf(s.scopes, s.marks[m]) == KeyOf(s.scopes, mark.value) <==> Collides(s, s.marks[m], mark.value)
      {
        KeysEqualIff(s, s.marks[m], mark.value);
      }
      var key := ItemKey(item, s.scope.value, index).value;
      assert key == KeyOf(s.scopes, mark.value);
      assert key in s.seen <==> Sighted(s, key, |s.marks|);
    }
  }

  /** Event by event, after every run: what item-done emits. */
  lemma DoneEmitsIff(events: seq<Event>, item: Item, index: Option<int>, responseId: Option<string>)
    ensures var s := WithScope(Run(events), responseId);
            var mark := NewMark(s, item, index, Streamed);
            && ScopesAgree(s)
            && Step(Run(events), ItemDone(Some(item), index, responseId)).output
               == Run(events).output
                  + if mark.Some? && HasCollision(s, mark.value) then [] else [item]
  {
    RunsGood(events);
    RunsName(events);
    DoneEmits(Run(events), item, index, responseId);
  }

  lemma ScopeOpened(s: State, responseId: Option<string>)
    requires Good(s) && NamesAgree(s)
    ensures Good(WithScope(s, responseId)) && NamesAgree(WithScope(s, responseId))
  {
    ScopeMoved(s, WithScope(s, responseId));
    WithScopeNames(s, responseId);
  }

  lemma DoneEmits(s: State, item: Item, index: Option<int>, responseId: Option<string>)
    requires Good(s) && NamesAgree(s)
    ensures var s' := WithScope(s, responseId);
            var mark := NewMark(s', item, index, Streamed);
            && ScopesAgree(s') && (mark.Some? && mark.value.AtIndex? ==> mark.value.scope < |s'.scopes|)
            && Step(s, ItemDone(Some(item), index, responseId)).output
               == s.output + if mark.Some? && HasCollision(s', mark.value) then [] else [item]
  {
    var s' := WithScope(s, responseId);
    ScopeOpened(s, responseId);
    DoneOffers(s, item, index, responseId);
    OfferEmitsIff(s', item, index);
  }

  lemma DoneOffers(s: State, item: Item, index: Option<int>, responseId: Option<string>)
    ensures Step(s, ItemDone(Some(item), index, responseId)).output
        == Offer(WithScope(s, responseId), item, index).output
    ensures WithScope(s, responseId).output == s.output
  {
  }

  // What the marks say about the output.

  predicate IsTool(item: Item) {
    item.kind != "message" && item.id.Some?
  }

  /** No tool item with an id is in the output twice, over the whole run. */
  ghost predicate ToolsOnce(output: seq<Item>, seen: set<string>) {
    && (forall a :: 0 <= a < |output| && IsTool(output[a]) ==> TypeKey(output[a].kind, output[a].id.value) in seen)
    && (forall a, b :: 0 <= a < b < |output| && IsTool(output[a]) && IsTool(output[b]) ==>
          output[a].kind != output[b].kind || output[a].id != output[b].id)
  }

  /** Emitted sightings point at the items they stand for, in the order of the output. */
  ghost predicate MarksPoint(marks: seq<Mark>, output: seq<Item>) {
    && (forall n :: 0 <= n < |marks| && marks[n].how.Emitted? ==>
          && marks[n].how.at < |output|
          && (if marks[n].AtIndex? then output[marks[n].how.at].kind == "message"
              else output[marks[n].how.at].kind == marks[n].kind && output[marks[n].how.at].id == Some(marks[n].id)))
    && (forall m, n :: 0 <= m < n < |marks| && marks[m].how.Emitted? && marks[n].how.Emitted? ==>
          marks[m].how.at < marks[n].how.at)
  }

  ghost predicate IsMarked(marks: seq<Mark>, a: nat) {
    exists n :: 0 <= n < |marks| && marks[n].how == Emitted(a)
  }

  /** And every item with an id has its emitted sighting. (A message without an id has one too when
      it was offered at an index; anything else without an id has no key.) */
  ghost predicate AllMarked(marks: seq<Mark>, output: seq<Item>) {
    forall a :: 0 <= a < |output| && output[a].id.Some? ==> IsMarked(marks, a)
  }

  ghost predicate OutputAgrees(s: State) {
    ToolsOnce(s.output, s.seen) && MarksPoint(s.marks, s.output) && AllMarked(s.marks, s.output)
  }

  lemma MarkedStays(marks: seq<Mark>, marks': seq<Mark>, a: nat)
    requires IsMarked(marks, a) && marks <= marks'
    ensures IsMarked(marks', a)
  {
    var n :| 0 <= n < |marks| && marks[n].how == Emitted(a);
    assert marks'[n].how == Emitted(a);
  }

  lemma OfferMarks(s: State, item: Item, index: Option<int>)
    requires AllMarked(s.marks, s.output) && s.scope.Some?
    ensures AllMarked(Offer(s, item, index).marks, Offer(s, item, index).output)
  {
    var s' := Offer(s, item, index);
    forall a | 0 <= a < |s'.output| && s'.output[a].id.Some?
      ensures IsMarked(s'.marks, a)
    {
      if a < |s.output| {
        MarkedStays(s.marks, s'.marks, a);
      } else {
        assert s'.marks[|s.marks|].how == Emitted(a);
      }
    }
  }

  lemma ToolAdded(output: seq<Item>, seen: set<string>, item: Item, key: string)
    requires ToolsOnce(output, seen) && key !in seen
    requires IsTool(item) ==> key == TypeKey(item.kind, item.id.value)
    ensures ToolsOnce(output + [item], seen + {key})
  {
  }

  lemma OfferOutput(s: State, item: Item, index: Option<int>)
    requires OutputAgrees(s) && s.scope.Some?
    ensures OutputAgrees(Offer(s, item, index))
  {
    OfferMarks(s, item, index);
    var key := ItemKey(item, s.scope.value, index);
    if key.Some? && key.value !in s.seen {
      ToolAdded(s.output, s.seen, item, key.value);
    }
  }

  lemma {:induction false} OfferAllOutput(s: State, output: seq<Option<Item>>)
    requires OutputAgrees(s) && s.scope.Some?
    ensures OutputAgrees(OfferAll(s, output))
  {
    if output != [] {
      var n := |output| - 1;
      OfferAllOutput(s, output[..n]);
      if output[n].Some? {
        OfferOutput(OfferAll(s, output[..n]), output[n].value, Some(n));
      }
    }
  }

  lemma SeenGrows(s: State, s': State)
    requires OutputAgrees(s) && s.seen <= s'.seen && s'.output == s.output
    requires s.marks <= s'.marks && forall n :: |s.marks| <= n < |s'.marks| ==> s'.marks[n].how.Streamed?
    ensures OutputAgrees(s')
  {
    forall a | 0 <= a < |s'.output| && s'.output[a].id.Some?
      ensures IsMarked(s'.marks, a)
    {
      MarkedStays(s.marks, s'.marks, a);
    }
  }

  /** Over every run no tool item with an id is emitted twice, and emitted sightings are the
      items they claim to be. */
  lemma {:induction false} RunsOutput(events: seq<Event>)
    ensures OutputAgrees(Run(events))
  {
    if events != [] {
      var s, e := Run(events[..|events| - 1]), events[|events| - 1];
      RunsOutput(events[..|events| - 1]);
      match e
      case TextDelta(_, _, _) => SeenGrows(s, Step(s, e));
      case ItemDone(Some(item), index, responseId) => OfferOutput(WithScope(s, responseId), item, index);
      case Completed(output, responseId) => OfferAllOutput(WithScope(s, responseId), output);
      case _ =>
    }
  }

  /** So nothing is output twice: two output items with ids are never the same message of a scope,
      nor items whose type and id run together alike. */
  lemma OutputItemsDiffer(events: seq<Event>, a: nat, b: nat) returns (m: nat, n: nat)
    requires a < b < |Run(events).output| && Run(events).output[a].id.Some? && Run(events).output[b].id.Some?
    ensures var s := Run(events);
            && m < n < |s.marks| && s.marks[m].how == Emitted(a) && s.marks[n].how == Emitted(b)
            && ScopesAgree(s) && !Collides(s, s.marks[m], s.marks[n])
  {
    RunsOutput(events);
    var s := Run(events);
    m :| 0 <= m < |s.marks| && s.marks[m].how == Emitted(a);
    n :| 0 <= n < |s.marks| && s.marks[n].how == Emitted(b);
    EmittedIffNoCollision(events, n);
  }
}
