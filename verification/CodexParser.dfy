/** The mutable parse state of one CLI run and the functions that update it. */
module CodexParser {
  import opened Base
  import opened CodexDedup

  class CliParseState {
    var responsesSeenOutputKeys: set<string>
    var responsesCurrentOutputScope: Option<string>
    var responsesNextImplicitOutputScope: nat
    ghost var record: State

    /** The record repeats the fields and adds the history the theorems speak about. */
    ghost predicate Valid()
      reads this
    {
      && record.seen == responsesSeenOutputKeys
      && record.scope == responsesCurrentOutputScope
      && record.nextImplicit == responsesNextImplicitOutputScope
    }

    constructor ()
      ensures Valid() && record == START
    {
      responsesSeenOutputKeys, responsesCurrentOutputScope, responsesNextImplicitOutputScope := {}, None, 0;
      record := START;
    }

    method ResponseScope(responseId: Option<string>) returns (scope: string)
      requires Valid()
      modifies this
      ensures Valid() && record == WithScope(old(record), responseId) && record.scope == Some(scope)
    {
      record := WithScope(record, responseId);
      if responsesCurrentOutputScope.Some? {
        return responsesCurrentOutputScope.value;
      }
      if responseId.Some? {
        scope := "response:" + responseId.value;
      } else {
        scope := NewScope(None, responsesNextImplicitOutputScope);
        responsesNextImplicitOutputScope := responsesNextImplicitOutputScope + 1;
      }
      responsesCurrentOutputScope := Some(scope);
    }

    method MarkResponseItemUnseen(item: Item, scope: string, index: Option<int>) returns (unseen: bool)
      requires Valid() && record.scope == Some(scope)
      modifies this
      ensures Valid() && record == Offer(old(record), item, index)
      ensures record.output == if unseen then old(record).output + [item] else old(record).output
    {
      record := Offer(record, item, index);
      var key := ItemKey(item, scope, index);
      if key.None? {
        return true;
      }
      if key.value in responsesSeenOutputKeys {
        return false;
      }
      responsesSeenOutputKeys := responsesSeenOutputKeys + {key.value};
      return true;
    }

    method MarkStreamedMessageItemSeen(itemId: Option<string>, index: Option<int>, responseId: Option<string>)
      requires Valid()
      modifies this
      ensures Valid() && record == Handle(old(record), TextDelta(itemId, index, responseId))
    {
      if itemId.Some? {
        responsesSeenOutputKeys := responsesSeenOutputKeys + {TypeKey("message", itemId.value)};
        record := SawDelta(record, itemId);
      }
      if index.Some? {
        var scope := ResponseScope(responseId);
        responsesSeenOutputKeys := responsesSeenOutputKeys + {IndexKey(scope, index.value)};
        record := SawIndex(record, index.value);
      }
    }

    /** The final replay, item by item. */
    method Replay(output: seq<Option<Item>>, scope: string) returns (emitted: seq<Item>)
      requires Valid() && record.scope == Some(scope)
      modifies this
      ensures Valid() && record == OfferAll(old(record), output) && record.output == old(record).output + emitted
    {
      emitted := [];
      for index := 0 to |output|
        invariant Valid() && record.scope == Some(scope)
        invariant record == OfferAll(old(record), output[..index])
        invariant record.output == old(record).output + emitted
      {
        assert output[..index + 1][..index] == output[..index];
        if output[index].Some? {
          var item := output[index].value;
          var unseen := MarkResponseItemUnseen(item, scope, Some(index));
          if unseen {
            emitted := emitted + [item];
          }
        }
      }
      assert output[..|output|] == output;
    }

    /** One parsed event: what it emits is exactly what the specification adds to the output. */
    method ParseEvent(e: Event) returns (emitted: seq<Item>)
      requires Valid()
      modifies this
      ensures Valid() && record == Step(old(record), e) && record.output == old(record).output + emitted
    {
      emitted := [];
      match e {
      case TextDelta(itemId, index, responseId) => MarkStreamedMessageItemSeen(itemId, index, responseId);
      case ItemDone(item, index, responseId) =>
        if item.Some? {
          var scope := ResponseScope(responseId);
          var unseen := MarkResponseItemUnseen(item.value, scope, index);
          if unseen {
            emitted := [item.value];
          }
        }
      case Completed(output, responseId) =>
        var scope := ResponseScope(responseId);
        emitted := Replay(output, scope);
        responsesCurrentOutputScope := None;
        record := Finish(record);
      case ResponseFailed =>
        responsesCurrentOutputScope := None;
        record := Finish(record);
      case OtherEvent =>
      }
      record := Tick(record);
    }
  }
}
