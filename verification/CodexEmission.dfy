/** What each event leaves behind: its sightings, under its own number, and its items in the output.
    Together with the theorems about collisions this says what a whole run emits. */
module CodexEmission {
  import opened Base
  import opened CodexDedup

  // Every event leaves its sightings, and no others.

  predicate SeesIndex(e: Event, index: int) {
    match e
    case TextDelta(_, i, _) => i == Some(index)
    case ItemDone(Some(item), i, _) => item.kind == "message" && i == Some(index)
    case Completed(output, _) => 0 <= index < |output| && output[index].Some? && output[index].value.kind == "message"
    case _ => false
  }

  /** Items that are not messages at an index are seen by type and id, as are the deltas' item ids. */
  predicate SeesId(e: Event, kind: string, id: string) {
    match e
    case TextDelta(itemId, _, _) => kind == "message" && itemId == Some(id)
    case ItemDone(Some(item), index, _) =>
      item.kind == kind && item.id == Some(id) && !(kind == "message" && index.Some?)
    case Completed(output, _) =>
      kind != "message" && exists k :: 0 <= k < |output| && output[k].Some? && output[k].value.kind == kind
                                       && output[k].value.id == Some(id)
    case _ => false
  }

  ghost predicate HasIndexMark(marks: seq<Mark>, event: nat, index: int) {
    exists m :: 0 <= m < |marks| && marks[m].AtIndex? && marks[m].event == event && marks[m].index == index
  }

  ghost predicate HasIdMark(marks: seq<Mark>, event: nat, kind: string, id: string) {
    exists m :: 0 <= m < |marks| && marks[m].ById? && marks[m].event == event && marks[m].kind == kind
        && marks[m].id == id
  }

  ghost predicate Recorded(marks: seq<Mark>, events: seq<Event>) {
    && (forall m :: 0 <= m < |marks| ==> marks[m].event < |events|)
    && (forall t, i :: 0 <= t < |events| ==> (HasIndexMark(marks, t, i) <==> SeesIndex(events[t], i)))
    && (forall t, kind, id :: 0 <= t < |events| ==> (HasIdMark(marks, t, kind, id) <==> SeesId(events[t], kind, id)))
  }

  /** The marks of one event: what a prefix of a completed response's items leaves behind. */
  lemma {:induction false} OfferAllSees(s: State, output: seq<Option<Item>>)
    requires s.scope.Some? && forall m :: 0 <= m < |s.marks| ==> s.marks[m].event < s.handled
    ensures var s' := OfferAll(s, output);
            && s.marks <= s'.marks && s'.handled == s.handled
            && (forall m :: |s.marks| <= m < |s'.marks| ==> s'.marks[m].event == s.handled)
            && (forall i :: HasIndexMark(s'.marks, s.handled, i) <==> SeesIndex(Completed(output, None), i))
            && (forall kind, id ::
                  HasIdMark(s'.marks, s.handled, kind, id) <==> SeesId(Completed(output, None), kind, id))
  {
    if output != [] {
      var n := |output| - 1;
      OfferAllSees(s, output[..n]);
      if output[n].Some? {
        OfferSees(OfferAll(s, output[..n]), output[n].value, n, output);
      }
      CompletedGrows(output);
    }
  }

  lemma CompletedGrows(output: seq<Option<Item>>)
    requires output != []
    ensures var n := |output| - 1; var e, b := Completed(output, None), Completed(output[..n], None);
            && (forall i ::
                  SeesIndex(e, i)
                  <==> (SeesIndex(b, i) || (i == n && output[n].Some? && output[n].value.kind == "message")))
            && (forall kind, id ::
                  SeesId(e, kind, id)
                  <==> (|| SeesId(b, kind, id)
                        || (kind != "message" && output[n].Some? && output[n].value.kind == kind
                            && output[n].value.id == Some(id))))
  {
    var n := |output| - 1;
    assert forall k :: 0 <= k < n ==> output[..n][k] == output[k];
  }

  /** One more mark. */
  lemma MarkSees(marks: seq<Mark>, mark: Mark)
    ensures forall t, i :: HasIndexMark(marks + [mark], t, i) <==>
              HasIndexMark(marks, t, i) || (mark.AtIndex? && mark.event == t && mark.index == i)
    ensures forall t, kind, id :: HasIdMark(marks + [mark], t, kind, id) <==>
              HasIdMark(marks, t, kind, id) || (mark.ById? && mark.event == t && mark.kind == kind && mark.id == id)
  {
    var more := marks + [mark];
    assert more[|marks|] == mark;
    forall t, i | HasIndexMark(marks, t, i) ensures HasIndexMark(more, t, i) {
      var m :| 0 <= m < |marks| && marks[m].AtIndex? && marks[m].event == t && marks[m].index == i;
      assert more[m] == marks[m];
    }
    forall t, kind, id | HasIdMark(marks, t, kind, id) ensures HasIdMark(more, t, kind, id) {
      var m :| 0 <= m < |marks| && marks[m].ById? && marks[m].event == t && marks[m].kind == kind && marks[m].id == id;
      assert more[m] == marks[m];
    }
  }

  lemma OfferSees(s: State, item: Item, n: nat, output: seq<Option<Item>>)
    requires s.scope.Some?
    ensures var s' := Offer(s, item, Some(n));
            && s.marks <= s'.marks && s'.handled == s.handled
            && (forall m :: |s.marks| <= m < |s'.marks| ==> s'.marks[m].event == s.handled)
            && (forall i :: HasIndexMark(s'.marks, s.handled, i) <==>
                  HasIndexMark(s.marks, s.handled, i) || (i == n && item.kind == "message"))
            && (forall kind, id :: HasIdMark(s'.marks, s.handled, kind, id) <==>
                  HasIdMark(s.marks, s.handled, kind, id)
                      || (kind != "message" && item.kind == kind && item.id == Some(id)))
  {
    var s' := Offer(s, item, Some(n));
    if s'.marks != s.marks {
      MarkSees(s.marks, s'.marks[|s.marks|]);
      assert s'.marks == s.marks + [s'.marks[|s.marks|]];
    }
  }

  /** The new marks of a step all belong to its event, and are what the event shows. */
  ghost predicate StepMarks(s: State, s': State, e: Event) {
    && s.marks <= s'.marks && s'.handled == s.handled + 1
    && (forall m :: |s.marks| <= m < |s'.marks| ==> s'.marks[m].event == s.handled)
    && (forall i :: HasIndexMark(s'.marks, s.handled, i) <==> SeesIndex(e, i))
    && (forall kind, id :: HasIdMark(s'.marks, s.handled, kind, id) <==> SeesId(e, kind, id))
  }

  lemma StepSees(s: State, e: Event)
    requires forall m :: 0 <= m < |s.marks| ==> s.marks[m].event < s.handled
    ensures StepMarks(s, Step(s, e), e)
  {
    match e
    case TextDelta(itemId, index, responseId) => DeltaSees(s, itemId, index, responseId);
    case ItemDone(Some(item), index, responseId) => DoneSees(s, item, index, responseId);
    case Completed(output, responseId) =>
      OfferAllSees(WithScope(s, responseId), output);
      assert forall i :: SeesIndex(e, i) <==> SeesIndex(Completed(output, None), i);
      assert forall kind, id :: SeesId(e, kind, id) <==> SeesId(Completed(output, None), kind, id);
    case _ =>
  }

  lemma DeltaSees(s: State, itemId: Option<string>, index: Option<int>, responseId: Option<string>)
    requires forall m :: 0 <= m < |s.marks| ==> s.marks[m].event < s.handled
    ensures StepMarks(s, Step(s, TextDelta(itemId, index, responseId)), TextDelta(itemId, index, responseId))
  {
    var s1 := SawDelta(s, itemId);
    if itemId.Some? {
      MarkSees(s.marks, ById(s.handled, "message", itemId.value, Streamed));
    }
    if index.Some? {
      var s2 := WithScope(s1, responseId);
      MarkSees(s2.marks, AtIndex(s2.handled, Current(s2), index.value, Streamed));
    }
  }

  lemma DoneSees(s: State, item: Item, index: Option<int>, responseId: Option<string>)
    requires forall m :: 0 <= m < |s.marks| ==> s.marks[m].event < s.handled
    ensures StepMarks(s, Step(s, ItemDone(Some(item), index, responseId)), ItemDone(Some(item), index, responseId))
  {
    var s1 := WithScope(s, responseId);
    var s' := Offer(s1, item, index);
    if NewMark(s1, item, index, Streamed).Some? {
      MarkSees(s1.marks, s'.marks[|s1.marks|]);
      assert s'.marks == s1.marks + [s'.marks[|s1.marks|]];
    }
  }

  lemma OldMarksStay(marks: seq<Mark>, more: seq<Mark>, now: nat, t: nat)
    requires marks <= more && t < now && forall m :: |marks| <= m < |more| ==> more[m].event == now
    ensures forall i :: HasIndexMark(more, t, i) <==> HasIndexMark(marks, t, i)
    ensures forall kind, id :: HasIdMark(more, t, kind, id) <==> HasIdMark(marks, t, kind, id)
  {
    assert forall m :: 0 <= m < |marks| ==> more[m] == marks[m];
    forall i | HasIndexMark(marks, t, i) ensures HasIndexMark(more, t, i) {
      var m :| 0 <= m < |marks| && marks[m].AtIndex? && marks[m].event == t && marks[m].index == i;
      assert more[m] == marks[m];
    }
    forall kind, id | HasIdMark(marks, t, kind, id) ensures HasIdMark(more, t, kind, id) {
      var m :| 0 <= m < |marks| && marks[m].ById? && marks[m].event == t && marks[m].kind == kind && marks[m].id == id;
      assert more[m] == marks[m];
    }
  }

  /** Over every run: each event that carries a message at an index, or an item with an id, leaves its
      sighting under its own number, and there are no other sightings. */
  lemma {:induction false} RunsRecordSightings(events: seq<Event>)
    ensures Run(events).handled == |events| && Recorded(Run(events).marks, events)
  {
    if events != [] {
      var before, e := events[..|events| - 1], events[|events| - 1];
      RunsRecordSightings(before);
      var s, s' := Run(before), Run(events);
      StepSees(s, e);
      forall t | 0 <= t < |before|
        ensures forall i :: HasIndexMark(s'.marks, t, i) <==> SeesIndex(events[t], i)
        ensures forall kind, id :: HasIdMark(s'.marks, t, kind, id) <==> SeesId(events[t], kind, id)
      {
        OldMarksStay(s.marks, s'.marks, |before|, t);
        assert events[t] == before[t];
      }
    }
  }

  // What a completed response emits.

  /** The mark that position k of a completed response would make. */
  function MarkAt(s: State, output: seq<Option<Item>>, k: nat): Option<Mark>
    requires k < |output|
  {
    if output[k].None? then None else NewMark(s, output[k].value, Some(k), Streamed)
  }

  /** The item at position k is new: it has no key, or collides with nothing sighted before the
      response completed nor with an earlier position. */
  ghost predicate IsNew(s: State, output: seq<Option<Item>>, k: nat)
    requires ScopesAgree(s) && s.scope.Some? && k < |output|
  {
    var mark := MarkAt(s, output, k);
    && output[k].Some?
    && (mark.Some? ==>
          && !HasCollision(s, mark.value)
          && (forall j :: 0 <= j < k && MarkAt(s, output, j).Some? ==>
                !Collides(s, MarkAt(s, output, j).value, mark.value)))
  }

  /** The new items among the first n, in order. */
  ghost function NewItems(s: State, output: seq<Option<Item>>, n: nat): seq<Item>
    requires ScopesAgree(s) && s.scope.Some? && n <= |output|
  {
    if n == 0 then []
    else NewItems(s, output, n - 1) + if IsNew(s, output, n - 1) then [output[n - 1].value] else []
  }

  /** The keys the first n positions have added. */
  ghost predicate SeenAfter(s: State, s': State, output: seq<Option<Item>>, n: nat)
    requires n <= |output|
  {
    && s'.scope == s.scope && s'.scopes == s.scopes
    && (forall key :: key in s'.seen <==>
          || key in s.seen
          || exists j :: 0 <= j < n && MarkAt(s, output, j).Some? && KeyOf(s.scopes, MarkAt(s, output, j).value) == key)
  }

  lemma KeyAt(s: State, output: seq<Option<Item>>, k: nat)
    requires ScopesAgree(s) && s.scope.Some? && k < |output| && output[k].Some?
    ensures ItemKey(output[k].value, s.scope.value, Some(k))
         == if MarkAt(s, output, k).Some? then Some(KeyOf(s.scopes, MarkAt(s, output, k).value)) else None
  {
  }

  lemma OneMoreSeen(s: State, s': State, output: seq<Option<Item>>, n: nat)
    requires ScopesAgree(s) && s.scope.Some? && n < |output| && SeenAfter(s, s', output, n)
    ensures SeenAfter(s, if output[n].Some? then Offer(s', output[n].value, Some(n)) else s', output, n + 1)
  {
    if output[n].Some? {
      KeyAt(s, output, n);
      var s'' := Offer(s', output[n].value, Some(n));
      forall key
        ensures key in s''.seen <==>
          || key in s.seen
          || exists j :: 0 <= j < n + 1 && MarkAt(s, output, j).Some?
              && KeyOf(s.scopes, MarkAt(s, output, j).value) == key
      {
        var mark := MarkAt(s, output, n);
        assert key in s''.seen <==> key in s'.seen || (mark.Some? && KeyOf(s.scopes, mark.value) == key);
      }
    }
  }

  lemma NewIffUnseen(s: State, s': State, output: seq<Option<Item>>, n: nat)
    requires Good(s) && NamesAgree(s) && s.scope.Some? && n < |output| && output[n].Some? && SeenAfter(s, s', output, n)
    ensures IsNew(s, output, n) <==>
              var key := ItemKey(output[n].value, s.scope.value, Some(n)); key.None? || key.value !in s'.seen
  {
    KeyAt(s, output, n);
    var mark := MarkAt(s, output, n);
    if mark.Some? {
      var key := KeyOf(s.scopes, mark.value);
      forall m | 0 <= m < |s.marks|
        ensures KeyOf(s.scopes, s.marks[m]) == key <==> Collides(s, s.marks[m], mark.value)
      {
        KeysEqualIff(s, s.marks[m], mark.value);
      }
      assert key in s.seen <==> Sighted(s, key, |s.marks|);
      forall j | 0 <= j < n && MarkAt(s, output, j).Some?
        ensures KeyOf(s.scopes, MarkAt(s, output, j).value) == key
            <==> Collides(s, MarkAt(s, output, j).value, mark.value)
      {
        KeysEqualIff(s, MarkAt(s, output, j).value, mark.value);
      }
    }
  }

  lemma {:induction false} OfferAllEmits(s: State, output: seq<Option<Item>>, n: nat)
    requires Good(s) && NamesAgree(s) && s.scope.Some? && n <= |output|
    ensures SeenAfter(s, OfferAll(s, output[..n]), output, n)
    ensures OfferAll(s, output[..n]).output == s.output + NewItems(s, output, n)
  {
    if n > 0 {
      OfferAllEmits(s, output, n - 1);
      assert output[..n][..n - 1] == output[..n - 1];
      var s' := OfferAll(s, output[..n - 1]);
      OneMoreSeen(s, s', output, n - 1);
      if output[n - 1].Some? {
        NewIffUnseen(s, s', output, n - 1);
      }
    }
  }

  lemma CompletedOffers(s: State, output: seq<Option<Item>>, responseId: Option<string>)
    ensures Step(s, Completed(output, responseId)).output == OfferAll(WithScope(s, responseId), output).output
    ensures WithScope(s, responseId).output == s.output
  {
  }

  lemma CompletedAdds(s: State, output: seq<Option<Item>>, responseId: Option<string>)
    requires Good(s) && NamesAgree(s)
    ensures var s' := WithScope(s, responseId);
            && ScopesAgree(s')
            && Step(s, Completed(output, responseId)).output == s.output + NewItems(s', output, |output|)
  {
    var s' := WithScope(s, responseId);
    ScopeOpened(s, responseId);
    CompletedOffers(s, output, responseId);
    OfferAllEmits(s', output, |output|);
    assert output[..|output|] == output;
  }

  /** After every run, a completed response adds to the output, in order, exactly its new items. */
  lemma CompletedEmits(events: seq<Event>, output: seq<Option<Item>>, responseId: Option<string>)
    ensures var s := WithScope(Run(events), responseId);
            && ScopesAgree(s)
            && Run(events + [Completed(output, responseId)]).output
                == Run(events).output + NewItems(s, output, |output|)
  {
    RunsGood(events);
    RunsName(events);
    CompletedAdds(Run(events), output, responseId);
    assert (events + [Completed(output, responseId)])[..|events|] == events;
  }

  /** Nothing else emits an item. */
  lemma OnlyOffersEmit(events: seq<Event>, e: Event)
    requires !e.ItemDone? && !e.Completed?
    ensures Run(events + [e]).output == Run(events).output
  {
    assert (events + [e])[..|events|] == events;
  }
}
