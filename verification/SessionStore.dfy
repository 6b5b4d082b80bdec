/** The store object: its dictionaries, flags and timer, changed in place. The disk and the write
    in flight are environment. */
module SessionStoreObject {
  import opened Base
  import opened StoreProtocol

  class SessionStore {
    const messageLogCap: Option<int>
    var trees: map<Id, Tree>
    var nodeToTree: map<Id, Id>
    var messageLog: map<Chat, seq<Entry>>
    var messageLogIds: map<Chat, set<Id>>
    var dirty: bool
    var saveTimer: bool
    var disk: Disk
    var writing: seq<Disk>

    ghost function Fields(): Store
      reads this
    {
      Store(Memory(trees, nodeToTree, messageLog, messageLogIds), dirty, saveTimer, disk, writing)
    }

    ghost predicate Valid()
      reads this
    {
      Indexed(InMemory())
    }

    /** Nothing will be lost: see StoreProtocol.Durable. */
    ghost predicate Safe()
      reads this
    {
      Durable(Fields())
    }

    /** Construction loads the file, cleaning the message log item by item. */
    constructor (disk: Disk, cap: Option<int>)
      ensures Valid() && Safe() && Fields() == Opened(disk) && messageLogCap == cap
    {
      messageLogCap, this.disk, writing, dirty, saveTimer := cap, disk, [], false, false;
      trees, nodeToTree, messageLog, messageLogIds := map[], map[], map[], map[];
      new;
      LoadIndexes(disk);
      if disk.File? {
        trees, nodeToTree := disk.trees, disk.nodeToTree;
        if disk.log.Chats? {
          messageLog, messageLogIds := LoadChats(disk.log.chats);
        }
      }
    }

    static method CleanItems(items: seq<RawItem>) returns (cleaned: seq<Entry>, seen: set<Id>)
      ensures cleaned == Clean(items) && seen == IdsOf(cleaned)
    {
      cleaned, seen := [], {};
      for i := 0 to |items|
        invariant cleaned == Clean(items[..i]) && seen == IdsOf(cleaned)
      {
        assert items[..i + 1][..i] == items[..i];
        if items[i].Raw? && items[i].entry.id !in seen {
          IdsAppend(cleaned, items[i].entry);
          seen := seen + {items[i].entry.id};
          cleaned := cleaned + [items[i].entry];
        }
      }
      assert items[..|items|] == items;
    }

    static method LoadChats(chats: map<Chat, RawChat>) returns (log: map<Chat, seq<Entry>>, ids: map<Chat, set<Id>>)
      ensures log == LoadedChats(chats) && ids == IndexOf(log)
    {
      log, ids := map[], map[];
      var left := chats.Keys;
      while left != {}
        invariant left <= chats.Keys
        invariant forall c :: c in log <==> c in chats && c !in left && chats[c].Items?
        invariant forall c :: c in log ==> log[c] == CleanChat(chats[c])
        invariant ids == IndexOf(log)
        decreases left
      {
        var chat :| chat in left;
        left := left - {chat};
        if chats[chat].Items? {
          var cleaned, seen := CleanItems(chats[chat].items);
          log, ids := log[chat := cleaned], ids[chat := seen];
        }
      }
    }

    /** Marks the store dirty and restarts the debounce timer. */
    method ScheduleSave()
      modifies this`dirty, this`saveTimer
      ensures dirty && saveTimer
    {
      dirty := true;
      saveTimer := true;
    }

    ghost function InMemory(): Memory
      reads this
    {
      Memory(trees, nodeToTree, messageLog, messageLogIds)
    }

    /** Append, index, and trim to the cap, rebuilding the id index after a trim. */
    method AppendToLog(chat: Chat, entry: Entry)
      requires Indexed(InMemory()) && entry.id !in KnownIds(InMemory(), chat)
      modifies this`messageLog, this`messageLogIds
      ensures InMemory() == Recorded(old(InMemory()), chat, entry, messageLogCap)
    {
      var seen := if chat in messageLogIds then messageLogIds[chat] else {};
      var earlier := if chat in messageLog then messageLog[chat] else [];
      assert seen == IdsOf(earlier);
      IdsAppend(earlier, entry);
      var items := earlier + [entry];
      seen := seen + {entry.id};
      if messageLogCap.Some? && messageLogCap.value > 0 && |items| > messageLogCap.value {
        items := items[|items| - messageLogCap.value..];
        seen := IdsOf(items);
      }
      messageLog := messageLog[chat := items];
      messageLogIds := messageLogIds[chat := seen];
    }

    method RecordMessageId(chat: Chat, entry: Entry)
      requires Valid()
      modifies this
      ensures Valid() && (old(Safe()) ==> Safe())
      ensures Fields() == Step(old(Fields()), Op.Change(Record(chat, entry)), messageLogCap)
    {
      StepKeepsIndex(Fields(), Op.Change(Record(chat, entry)), messageLogCap);
      if chat in messageLogIds && entry.id in messageLogIds[chat] {
        return;
      }
      AppendToLog(chat, entry);
      ScheduleSave();
    }

    method MapNodes(nodes: set<Id>, root: Id)
      modifies this`nodeToTree
      ensures nodeToTree == old(nodeToTree) + (map n | n in nodes :: root)
    {
      var left := nodes;
      while left != {}
        invariant left <= nodes
        invariant nodeToTree == old(nodeToTree) + (map n | n in nodes - left :: root)
        decreases left
      {
        var node :| node in left;
        left := left - {node};
        nodeToTree := nodeToTree[node := root];
      }
      assert nodes - {} == nodes;
    }

    method SaveTree(root: Id, tree: Tree)
      requires Valid()
      modifies this
      ensures Valid() && (old(Safe()) ==> Safe())
      ensures Fields() == Step(old(Fields()), Op.Change(Change.SaveTree(root, tree)), messageLogCap)
    {
      trees := trees[root := tree];
      MapNodes(NodesOf(tree), root);
      ScheduleSave();
    }

    /** Only a non-empty tree schedules a save, so removing an empty one from a clean store is the
        one change after which memory and disk silently differ. */
    method RemoveTree(root: Id)
      requires Valid()
      modifies this
      ensures Valid() && Fields() == Step(old(Fields()), Op.Change(Change.RemoveTree(root)), messageLogCap)
      ensures old(Safe()) ==> (Safe() <==> !(root in old(trees) && old(trees)[root] == EmptyTree && !old(dirty)))
    {
      if root in trees {
        var tree := trees[root];
        ghost var safe := Safe();
        if tree == EmptyTree && safe {
          EmptyTreeRemovalIff(Fields(), root, messageLogCap);
        }
        trees := trees - {root};
        if tree != EmptyTree {
          nodeToTree := nodeToTree - tree.nodes;
          ScheduleSave();
        }
      }
    }

    /** The locked half of the timer callback; what it returns is then written outside the lock. On
        a dirty store it is safe iff every write still in flight carries the same memory. */
    method SaveFromTimer() returns (snapshot: Option<Disk>)
      requires Valid()
      modifies this
      ensures Valid() && Fields() == Step(old(Fields()), TimerFires, messageLogCap)
      ensures snapshot == if old(dirty) then Some(Snapshot(old(InMemory()))) else None
      ensures old(Safe()) ==> (Safe() <==> (old(dirty) ==> AllCarry(old(writing), InMemory())))
    {
      WriteDurableIff(Fields());
      if !dirty {
        saveTimer := false;
        return None;
      }
      var image := FlushSave();
      return Some(image);
    }

    /** Stop the timer and take a snapshot, which the caller then writes. */
    method FlushSave() returns (image: Disk)
      modifies this`saveTimer, this`dirty, this`writing
      ensures Fields() == BeginWrite(old(Fields())) && image == Snapshot(old(InMemory()))
    {
      saveTimer := false;
      dirty := false;
      image := Snapshot(Memory(trees, nodeToTree, messageLog, messageLogIds));
      writing := writing + [image];
    }

    /** One of the writes outside the lock ends; a failure marks the store dirty again. */
    method WriteData(which: nat, ok: bool)
      requires which < |writing|
      modifies this`disk, this`dirty, this`writing
      ensures Fields() == Step(old(Fields()), WriteEnds(which, ok), messageLogCap)
      ensures old(Safe()) ==> Safe()
    {
      if ok {
        disk := writing[which];
      } else {
        dirty := true;
      }
      writing := writing[..which] + writing[which + 1..];
    }

    /** Shutdown: flush whatever there is. When the write succeeds the disk holds the memory, and it
        stays so iff the earlier writes still in flight carry it too. */
    method FlushPendingSave(ok: bool)
      requires Valid()
      modifies this
      ensures Valid()
      ensures var begun := Step(old(Fields()), Flush, messageLogCap);
              Fields() == Step(begun, WriteEnds(|old(writing)|, ok), messageLogCap)
      ensures InMemory() == old(InMemory()) && writing == old(writing)
      ensures if ok then Load(disk) == InMemory() && !dirty else dirty && disk == old(disk)
      ensures Safe() <==> !ok || AllCarry(old(writing), InMemory())
    {
      SnapshotRoundTrip(InMemory());
      var image := FlushSave();
      assert writing[..|old(writing)|] == old(writing) && writing[|old(writing)| + 1..] == [];
      WriteData(|writing| - 1, ok);
    }

    method ClearAll(ok: bool)
      requires Valid()
      modifies this
      ensures Valid()
      ensures var begun := Step(old(Fields()), Clear, messageLogCap);
              Fields() == Step(begun, WriteEnds(|old(writing)|, ok), messageLogCap)
      ensures InMemory() == BLANK && writing == old(writing) && (ok ==> Load(disk) == BLANK)
      ensures Safe() <==> !ok || AllCarry(old(writing), BLANK)
    {
      SnapshotRoundTrip(BLANK);
      trees, nodeToTree, messageLog, messageLogIds := map[], map[], map[], map[];
      var image := FlushSave();
      assert writing[..|old(writing)|] == old(writing) && writing[|old(writing)| + 1..] == [];
      WriteData(|writing| - 1, ok);
    }
  }
}
