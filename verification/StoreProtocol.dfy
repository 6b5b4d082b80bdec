/** The persistent store of messaging/session.py: the per-chat message log with its id index, the
    trees, and the debounced save protocol between memory and disk. JSON encoding is the identity;
    a disk image keeps the untrusted shape of what a file may contain. */
module StoreProtocol {
  import opened Base

  type Id = string
  type Chat = string

  datatype Entry = Entry(id: Id, ts: string, direction: string, kind: string)

  /** `{}` is the one tree Python treats as false. */
  datatype Tree = EmptyTree | Tree(nodes: set<Id>, payload: nat)

  datatype Memory = Memory(
    trees: map<Id, Tree>,
    nodeToTree: map<Id, Id>,
    log: map<Chat, seq<Entry>>,
    ids: map<Chat, set<Id>>)

  datatype RawItem = NotADict | WithoutId | Raw(entry: Entry)
  datatype RawChat = NotAList | Items(items: seq<RawItem>)
  datatype RawLog = NotAMap | Chats(chats: map<Chat, RawChat>)
  datatype Disk = Absent | Unreadable | File(trees: map<Id, Tree>, nodeToTree: map<Id, Id>, log: RawLog)

  const BLANK := Memory(map[], map[], map[], map[])

  function IdsOf(entries: seq<Entry>): (ids: set<Id>)
    ensures forall i :: i in ids <==> exists n :: 0 <= n < |entries| && entries[n].id == i
  {
    set n | 0 <= n < |entries| :: entries[n].id
  }

  lemma IdsAppend(entries: seq<Entry>, e: Entry)
    ensures IdsOf(entries + [e]) == IdsOf(entries) + {e.id}
  {
    var all := entries + [e];
    forall i ensures i in IdsOf(all) <==> i in IdsOf(entries) || i == e.id {
      if i in IdsOf(entries) {
        var n :| 0 <= n < |entries| && entries[n].id == i;
        assert all[n].id == i;
      }
      assert all[|entries|].id == e.id;
    }
  }

  ghost predicate NoDuplicates(entries: seq<Entry>) {
    forall i, j :: 0 <= i < j < |entries| ==> entries[i].id != entries[j].id
  }

  /** The id index is exactly the ids of the log, and no chat lists a message twice. */
  ghost predicate Indexed(m: Memory) {
    && m.ids.Keys == m.log.Keys
    && (forall c :: c in m.log ==> m.ids[c] == IdsOf(m.log[c]) && NoDuplicates(m.log[c]))
  }

  // Loading.

  /** Keep the first usable item for each id. */
  function Clean(items: seq<RawItem>): (entries: seq<Entry>) {
    if items == [] then []
    else
      var before, last := Clean(items[..|items| - 1]), items[|items| - 1];
      if last.Raw? && last.entry.id !in IdsOf(before) then before + [last.entry] else before
  }

  function CleanChat(c: RawChat): seq<Entry> {
    if c.Items? then Clean(c.items) else []
  }

  function LoadedChats(chats: map<Chat, RawChat>): (log: map<Chat, seq<Entry>>) {
    map c | c in chats && chats[c].Items? :: CleanChat(chats[c])
  }

  function IndexOf(log: map<Chat, seq<Entry>>): map<Chat, set<Id>> {
    map c | c in log :: IdsOf(log[c])
  }

  function Load(d: Disk): Memory {
    match d
    case File(trees, nodes, Chats(chats)) => Memory(trees, nodes, LoadedChats(chats), IndexOf(LoadedChats(chats)))
    case File(trees, nodes, NotAMap) => Memory(trees, nodes, map[], map[])
    case _ => BLANK
  }

  function RawItems(entries: seq<Entry>): seq<RawItem> {
    seq(|entries|, i requires 0 <= i < |entries| => Raw(entries[i]))
  }

  function Snapshot(m: Memory): Disk {
    File(m.trees, m.nodeToTree, Chats(map c | c in m.log :: Items(RawItems(m.log[c]))))
  }

  lemma {:induction false} CleanIsDistinct(items: seq<RawItem>)
    ensures NoDuplicates(Clean(items))
  {
    if items != [] {
      CleanIsDistinct(items[..|items| - 1]);
    }
  }

  /** Whatever the file holds, what is loaded from it is indexed and duplicate-free. */
  lemma LoadIndexes(d: Disk)
    ensures Indexed(Load(d))
  {
    if d.File? && d.log.Chats? {
      forall c | c in d.log.chats ensures NoDuplicates(CleanChat(d.log.chats[c])) {
        if d.log.chats[c].Items? {
          CleanIsDistinct(d.log.chats[c].items);
        }
      }
    }
  }

  lemma {:induction false} CleanKeepsClean(entries: seq<Entry>)
    requires NoDuplicates(entries)
    ensures Clean(RawItems(entries)) == entries
  {
    if entries != [] {
      var n := |entries| - 1;
      CleanKeepsClean(entries[..n]);
      assert RawItems(entries)[..n] == RawItems(entries[..n]);
      assert entries == entries[..n] + [entries[n]];
    } else {
      assert RawItems(entries) == [];
    }
  }

  /** Saving and loading gives the same memory back. */
  lemma SnapshotRoundTrip(m: Memory)
    requires Indexed(m)
    ensures Load(Snapshot(m)) == m
  {
    var l := Load(Snapshot(m));
    forall c | c in m.log ensures l.log[c] == m.log[c] {
      CleanKeepsClean(m.log[c]);
    }
    assert l.log == m.log;
    assert l.ids == m.ids;
  }

  // Changes of memory.

  datatype Change =
    | Record(chat: Chat, entry: Entry)
    | SaveTree(root: Id, tree: Tree)
    | RegisterNode(node: Id, root: Id)
    | RemoveNodes(nodes: seq<Id>)
    | RemoveTree(root: Id)
    | Sync(trees: map<Id, Tree>, nodeToTree: map<Id, Id>)

  function LogOf(m: Memory, chat: Chat): seq<Entry> {
    if chat in m.log then m.log[chat] else []
  }

  function KnownIds(m: Memory, chat: Chat): set<Id> {
    if chat in m.ids then m.ids[chat] else {}
  }

  /** The last cap entries, when a positive cap is configured. */
  function Cut(entries: seq<Entry>, cap: Option<int>): seq<Entry> {
    if cap.Some? && 0 < cap.value < |entries| then entries[|entries| - cap.value..] else entries
  }

  function Recorded(m: Memory, chat: Chat, entry: Entry, cap: Option<int>): Memory {
    if entry.id in KnownIds(m, chat) then m
    else
      var entries := Cut(LogOf(m, chat) + [entry], cap);
      m.(log := m.log[chat := entries], ids := m.ids[chat := IdsOf(entries)])
  }

  function NodesOf(t: Tree): set<Id> {
    if t.Tree? then t.nodes else {}
  }

  function Changed(m: Memory, c: Change, cap: Option<int>): Memory {
    match c
    case Record(chat, entry) => Recorded(m, chat, entry, cap)
    case SaveTree(root, tree) =>
      m.(trees := m.trees[root := tree], nodeToTree := m.nodeToTree + (map n | n in NodesOf(tree) :: root))
    case RegisterNode(node, root) => m.(nodeToTree := m.nodeToTree[node := root])
    case RemoveNodes(nodes) => m.(nodeToTree := m.nodeToTree - (set n | n in nodes))
    case RemoveTree(root) =>
      if root !in m.trees then m
      else m.(trees := m.trees - {root}, nodeToTree := m.nodeToTree - NodesOf(m.trees[root]))
    case Sync(trees, nodes) => m.(trees := trees, nodeToTree := nodes)
  }

  /** Does the change schedule a save? A known message and a missing or empty tree do not. */
  predicate Schedules(m: Memory, c: Change) {
    match c
    case Record(chat, entry) => entry.id !in KnownIds(m, chat)
    case RemoveTree(root) => root in m.trees && m.trees[root] != EmptyTree
    case _ => true
  }

  lemma CutDistinct(entries: seq<Entry>, cap: Option<int>)
    requires NoDuplicates(entries)
    ensures NoDuplicates(Cut(entries, cap))
  {
    var kept := Cut(entries, cap);
    assert forall i :: 0 <= i < |kept| ==> kept[i] == entries[|entries| - |kept| + i];
  }

  lemma RecordKeepsIndex(m: Memory, chat: Chat, entry: Entry, cap: Option<int>)
    requires Indexed(m)
    ensures Indexed(Recorded(m, chat, entry, cap))
  {
    if entry.id !in KnownIds(m, chat) {
      assert chat in m.log ==> m.ids[chat] == IdsOf(m.log[chat]);
      CutDistinct(LogOf(m, chat) + [entry], cap);
    }
  }

  lemma ChangeKeepsIndex(m: Memory, c: Change, cap: Option<int>)
    requires Indexed(m)
    ensures Indexed(Changed(m, c, cap))
  {
    if c.Record? {
      RecordKeepsIndex(m, c.chat, c.entry, cap);
    }
  }

  lemma {:induction false} ChangesKeepIndex(d: Disk, cs: seq<Change>, cap: Option<int>)
    ensures Indexed(Evolved(d, cs, cap))
  {
    if cs == [] {
      LoadIndexes(d);
    } else {
      ChangesKeepIndex(d, cs[..|cs| - 1], cap);
      ChangeKeepsIndex(Evolved(d, cs[..|cs| - 1], cap), cs[|cs| - 1], cap);
    }
  }

  /** Memory after loading a file and any sequence of changes. */
  function Evolved(d: Disk, cs: seq<Change>, cap: Option<int>): Memory {
    if cs == [] then Load(d) else Changed(Evolved(d, cs[..|cs| - 1], cap), cs[|cs| - 1], cap)
  }

  /** After any history: a message already listed for the chat changes nothing; a new one is
      appended, and with a positive cap exactly the last cap entries remain. */
  lemma RecordKeepsLast(d: Disk, cs: seq<Change>, cap: Option<int>, chat: Chat, entry: Entry)
    ensures var m := Evolved(d, cs, cap); var m' := Changed(m, Record(chat, entry), cap);
            var listed := exists n :: 0 <= n < |LogOf(m, chat)| && LogOf(m, chat)[n].id == entry.id;
            && (listed ==> m' == m)
            && (!listed ==>
                  var whole := LogOf(m, chat) + [entry];
                  var dropped := if cap.Some? && 0 < cap.value < |whole| then |whole| - cap.value else 0;
                  LogOf(m', chat) == whole[dropped..] && forall c :: c != chat ==> LogOf(m', c) == LogOf(m, c))
  {
    ChangesKeepIndex(d, cs, cap);
    var m := Evolved(d, cs, cap);
    KnownIffListed(m, chat, entry.id);
    RecordedKeepsLast(m, chat, entry, cap);
  }

  lemma RecordedKeepsLast(m: Memory, chat: Chat, entry: Entry, cap: Option<int>)
    ensures entry.id in KnownIds(m, chat) ==> Recorded(m, chat, entry, cap) == m
    ensures entry.id !in KnownIds(m, chat) ==>
              var m', whole := Recorded(m, chat, entry, cap), LogOf(m, chat) + [entry];
              var dropped := if cap.Some? && 0 < cap.value < |whole| then |whole| - cap.value else 0;
              LogOf(m', chat) == whole[dropped..] && forall c :: c != chat ==> LogOf(m', c) == LogOf(m, c)
  {
  }

  lemma KnownIffListed(m: Memory, chat: Chat, id: Id)
    requires Indexed(m)
    ensures id in KnownIds(m, chat) <==> exists n :: 0 <= n < |LogOf(m, chat)| && LogOf(m, chat)[n].id == id
  {
    if chat in m.log {
      assert KnownIds(m, chat) == IdsOf(LogOf(m, chat));
    } else {
      assert chat !in m.ids;
    }
  }

  // The save protocol.

  /** `writing` holds the snapshots of disk writes that have begun and not ended. */
  datatype Store = Store(memory: Memory, dirty: bool, timer: bool, disk: Disk, writing: seq<Disk>)

  datatype Op =
    | Change(change: Change)
    | TimerFires
    | Flush
    | Clear
    | WriteEnds(which: nat, ok: bool)

  function BeginWrite(s: Store): Store {
    s.(dirty := false, timer := false, writing := s.writing + [Snapshot(s.memory)])
  }

  function Step(s: Store, op: Op, cap: Option<int>): Store {
    match op
    case Change(c) =>
      var s1 := s.(memory := Changed(s.memory, c, cap));
      if Schedules(s.memory, c) then s1.(dirty := true, timer := true) else s1
    case TimerFires => if s.dirty then BeginWrite(s) else s.(timer := false)
    case Flush => BeginWrite(s)
    case Clear => BeginWrite(s.(memory := BLANK))
    case WriteEnds(i, ok) =>
      if i >= |s.writing| then s
      else
        var s1 := s.(writing := s.writing[..i] + s.writing[i + 1..]);
        if ok then s1.(disk := s.writing[i]) else s1.(dirty := true)
  }

  function Opened(d: Disk): Store {
    Store(Load(d), false, false, d, [])
  }

  function Run(d: Disk, ops: seq<Op>, cap: Option<int>): Store {
    if ops == [] then Opened(d) else Step(Run(d, ops[..|ops| - 1], cap), ops[|ops| - 1], cap)
  }

  /** Nothing is lost, however many writes are in flight: a save is still owed, or the disk and
      whatever may yet overwrite it carry the memory. "Carries" means that loading it gives the
      memory back; what is on disk does not matter while a write is in flight. */
  ghost predicate Durable(s: Store) {
    s.dirty || (AllCarry(s.writing, s.memory) && (s.writing == [] ==> Load(s.disk) == s.memory))
  }

  ghost predicate AllCarry(writing: seq<Disk>, m: Memory) {
    forall i :: 0 <= i < |writing| ==> Load(writing[i]) == m
  }

  ghost predicate Healthy(s: Store) {
    Indexed(s.memory) && Durable(s)
  }

  /** Does the step begin a disk write? */
  predicate Writes(s: Store, op: Op) {
    op.Flush? || op.Clear? || (op.TimerFires? && s.dirty)
  }

  /** A write may begin when every write still in flight carries what this one will, so that their
      order does not matter; and an empty tree may be removed when a save is owed anyway. Timer
      firings may be spurious, and writes may fail and end in any order. */
  ghost predicate Allowed(s: Store, op: Op) {
    && (Writes(s, op) ==> AllCarry(s.writing, if op.Clear? then BLANK else s.memory))
    && (op.Change? && op.change.RemoveTree? && op.change.root in s.memory.trees ==>
          s.memory.trees[op.change.root] != EmptyTree || s.dirty)
  }

  lemma StepKeepsIndex(s: Store, op: Op, cap: Option<int>)
    requires Indexed(s.memory)
    ensures Indexed(Step(s, op, cap).memory)
  {
    if op.Change? {
      ChangeKeepsIndex(s.memory, op.change, cap);
    }
  }

  lemma WriteDurableIff(s: Store)
    requires Indexed(s.memory)
    ensures Durable(BeginWrite(s)) <==> AllCarry(s.writing, s.memory)
  {
    SnapshotRoundTrip(s.memory);
    var s' := BeginWrite(s);
    assert s'.writing[|s.writing|] == Snapshot(s.memory);
    assert forall i :: 0 <= i < |s.writing| ==> s'.writing[i] == s.writing[i];
  }

  /** One step keeps the store healthy exactly when it is allowed. */
  lemma StepHealthyIff(s: Store, op: Op, cap: Option<int>)
    requires Healthy(s)
    ensures Healthy(Step(s, op, cap)) <==> Allowed(s, op)
  {
    StepKeepsIndex(s, op, cap);
    match op
    case Change(c) =>
      if c.RemoveTree? && c.root in s.memory.trees && s.memory.trees[c.root] == EmptyTree {
        EmptyTreeRemovalIff(s, c.root, cap);
      }
    case TimerFires => WriteDurableIff(s);
    case Flush => WriteDurableIff(s);
    case Clear => WriteDurableIff(s.(memory := BLANK));
    case WriteEnds(_, _) =>
  }

  /** Durability is not too strong: from a state without it, writes that all succeed can end in an
      order that leaves nothing owed, nothing in flight, and a disk without the memory. */
  lemma {:induction false} LossReachable(s: Store, cap: Option<int>) returns (ends: seq<Op>)
    requires !Durable(s)
    ensures forall n :: 0 <= n < |ends| ==> ends[n].WriteEnds? && ends[n].ok
    ensures var s' := After(s, ends, cap);
            !s'.dirty && s'.writing == [] && s'.memory == s.memory && Load(s'.disk) != s.memory
    decreases |s.writing|
  {
    if s.writing == [] {
      ends := [];
    } else {
      var bad :| 0 <= bad < |s.writing| && Load(s.writing[bad]) != s.memory;
      var first := if |s.writing| > 1 && bad == 0 then 1 else 0;
      var s1 := Step(s, WriteEnds(first, true), cap);
      assert |s.writing| > 1 ==> s1.writing[if bad == 0 then 0 else bad - 1] == s.writing[bad];
      ends := LossReachable(s1, cap);
      var all := [WriteEnds(first, true)] + ends;
      assert all[1..] == ends;
      ends := all;
    }
  }

  /** A state further on. */
  function After(s: Store, ops: seq<Op>, cap: Option<int>): Store
    decreases ops
  {
    if ops == [] then s else After(Step(s, ops[0], cap), ops[1..], cap)
  }

  /** And it is strong enough: from a durable state no order of write ends, successful or not, leads
      to a store that owes nothing, writes nothing, and has a disk without the memory. */
  lemma {:induction false} EndsLoseNothing(s: Store, ends: seq<Op>, cap: Option<int>)
    requires Healthy(s) && forall n :: 0 <= n < |ends| ==> ends[n].WriteEnds?
    ensures Healthy(After(s, ends, cap)) && After(s, ends, cap).memory == s.memory
    ensures var s' := After(s, ends, cap); !s'.dirty && s'.writing == [] ==> Load(s'.disk) == s.memory
    decreases ends
  {
    if ends != [] {
      StepHealthyIff(s, ends[0], cap);
      EndsLoseNothing(Step(s, ends[0], cap), ends[1..], cap);
    }
  }

  /** In every reachable state the store is dirty, or every snapshot in flight equals the memory, or
      nothing is in flight and the disk does; overlapping writes included, as long as they agree. */
  lemma {:induction false} RunsDurable(d: Disk, ops: seq<Op>, cap: Option<int>)
    requires forall i :: 0 <= i < |ops| ==> Allowed(Run(d, ops[..i], cap), ops[i])
    ensures Healthy(Run(d, ops, cap))
  {
    if ops == [] {
      LoadIndexes(d);
    } else {
      var before := ops[..|ops| - 1];
      assert forall i :: 0 <= i < |before| ==> before[..i] == ops[..i] && before[i] == ops[i];
      RunsDurable(d, before, cap);
      StepHealthyIff(Run(d, before, cap), ops[|ops| - 1], cap);
    }
  }

  /** Hence no pending work at all, or a final flush after which every write has ended and none has
      failed, means that the next process loads exactly this memory, in whatever order they end. */
  lemma RestartSeesMemory(d: Disk, ops: seq<Op>, ends: seq<Op>, cap: Option<int>)
    requires forall i :: 0 <= i < |ops| ==> Allowed(Run(d, ops[..i], cap), ops[i])
    requires forall n :: 0 <= n < |ends| ==> ends[n].WriteEnds?
    ensures var s := Run(d, ops, cap); !s.dirty && s.writing == [] ==> Load(s.disk) == s.memory
    ensures var s := Run(d, ops, cap); var s' := After(Step(s, Flush, cap), ends, cap);
            Allowed(s, Flush) && !s'.dirty && s'.writing == [] ==> Load(s'.disk) == s.memory
  {
    RunsDurable(d, ops, cap);
    var s := Run(d, ops, cap);
    if Allowed(s, Flush) {
      StepHealthyIff(s, Flush, cap);
      EndsLoseNothing(Step(s, Flush, cap), ends, cap);
    }
  }

  /** One successful flush with nothing else in flight is enough. */
  lemma FlushSaves(s: Store, cap: Option<int>)
    requires Indexed(s.memory) && s.writing == []
    ensures Load(Step(Step(s, Flush, cap), WriteEnds(0, true), cap).disk) == s.memory
  {
    SnapshotRoundTrip(s.memory);
    assert Step(s, Flush, cap).writing == [Snapshot(s.memory)];
  }

  // What memory holds, read off the operations.

  function LoadedTrees(d: Disk): map<Id, Tree> {
    if d.File? then d.trees else map[]
  }

  function LoadedNodes(d: Disk): map<Id, Id> {
    if d.File? then d.nodeToTree else map[]
  }

  function At<K, V>(m: map<K, V>, k: K): Option<V> {
    if k in m then Some(m[k]) else None
  }

  function TreeAfter(op: Op, root: Id, before: Option<Tree>): Option<Tree> {
    match op
    case Change(SaveTree(r, tree)) => if r == root then Some(tree) else before
    case Change(RemoveTree(r)) => if r == root then None else before
    case Change(Sync(trees, _)) => At(trees, root)
    case Clear => None
    case _ => before
  }

  /** `gone` is the tree that a removal removes. */
  function RootAfter(op: Op, node: Id, before: Option<Id>, gone: Option<Tree>): Option<Id> {
    match op
    case Change(SaveTree(r, tree)) => if node in NodesOf(tree) then Some(r) else before
    case Change(RegisterNode(n, r)) => if n == node then Some(r) else before
    case Change(RemoveNodes(nodes)) => if node in nodes then None else before
    case Change(RemoveTree(_)) => if gone.Some? && node in NodesOf(gone.value) then None else before
    case Change(Sync(_, nodes)) => At(nodes, node)
    case Clear => None
    case _ => before
  }

  /** The tree last saved or synced for a root, if it was not removed or cleared since. */
  function LastTree(d: Disk, ops: seq<Op>, root: Id): Option<Tree> {
    if ops == [] then At(LoadedTrees(d), root)
    else TreeAfter(ops[|ops| - 1], root, LastTree(d, ops[..|ops| - 1], root))
  }

  function RemovedRoot(op: Op): Id {
    match op
    case Change(RemoveTree(r)) => r
    case _ => ""
  }

  /** The root a node was last mapped to: by saving a tree that holds it or by registering it, if it
      was not unmapped, removed with its tree, or cleared since. */
  function LastRoot(d: Disk, ops: seq<Op>, node: Id): Option<Id> {
    if ops == [] then At(LoadedNodes(d), node)
    else
      var before, op := ops[..|ops| - 1], ops[|ops| - 1];
      RootAfter(op, node, LastRoot(d, before, node), LastTree(d, before, RemovedRoot(op)))
  }

  lemma ChangeTreeStep(m: Memory, c: Change, cap: Option<int>, root: Id)
    ensures At(Changed(m, c, cap).trees, root) == TreeAfter(Op.Change(c), root, At(m.trees, root))
  {
  }

  lemma ChangeNodeStep(m: Memory, c: Change, cap: Option<int>, node: Id)
    ensures At(Changed(m, c, cap).nodeToTree, node)
         == RootAfter(Op.Change(c), node, At(m.nodeToTree, node), At(m.trees, RemovedRoot(Op.Change(c))))
  {
  }

  lemma MemoryStep(s: Store, op: Op, cap: Option<int>)
    ensures Step(s, op, cap).memory
         == if op.Change? then Changed(s.memory, op.change, cap) else if op.Clear? then BLANK else s.memory
  {
  }

  /** Over every run the tree in memory at a root is the last one saved for it, and every node maps
      to the root it was last mapped to. Timers, flushes and writes change neither. */
  lemma {:induction false} MemoryIsLastSaved(d: Disk, ops: seq<Op>, cap: Option<int>, id: Id)
    ensures At(Run(d, ops, cap).memory.trees, id) == LastTree(d, ops, id)
    ensures At(Run(d, ops, cap).memory.nodeToTree, id) == LastRoot(d, ops, id)
  {
    if ops != [] {
      var before, op := ops[..|ops| - 1], ops[|ops| - 1];
      var s := Run(d, before, cap);
      MemoryIsLastSaved(d, before, cap, id);
      MemoryIsLastSaved(d, before, cap, RemovedRoot(op));
      MemoryStep(s, op, cap);
      if op.Change? {
        ChangeTreeStep(s.memory, op.change, cap, id);
        ChangeNodeStep(s.memory, op.change, cap, id);
      }
    }
  }

  /** So after any history a saved tree is in memory, and each of its nodes leads to it. */
  lemma SavedTreeIsFound(d: Disk, ops: seq<Op>, cap: Option<int>, root: Id, tree: Tree, other: Id)
    ensures var m, m' := Run(d, ops, cap).memory, Run(d, ops + [Change(SaveTree(root, tree))], cap).memory;
            && At(m'.trees, root) == Some(tree) && (other != root ==> At(m'.trees, other) == At(m.trees, other))
            && At(m'.nodeToTree, other) == if other in NodesOf(tree) then Some(root) else At(m.nodeToTree, other)
  {
    var more := ops + [Change(SaveTree(root, tree))];
    assert more[..|ops|] == ops;
    MemoryIsLastSaved(d, more, cap, root);
    MemoryIsLastSaved(d, more, cap, other);
    MemoryIsLastSaved(d, ops, cap, other);
  }

  /** Loading keeps, for each message id, the first usable item that has it; and nothing else. */
  lemma {:induction false} CleanKeepsFirst(items: seq<RawItem>, e: Entry)
    ensures e in Clean(items) <==>
              exists n :: && 0 <= n < |items| && items[n] == Raw(e)
                          && forall k :: 0 <= k < n ==> !(items[k].Raw? && items[k].entry.id == e.id)
    ensures forall id ::
              id in IdsOf(Clean(items)) <==> exists n :: 0 <= n < |items| && items[n].Raw? && items[n].entry.id == id
  {
    if items != [] {
      var before, last := items[..|items| - 1], items[|items| - 1];
      CleanKeepsFirst(before, e);
      assert forall k :: 0 <= k < |before| ==> before[k] == items[k];
      if last.Raw? && last.entry.id !in IdsOf(Clean(before)) {
        IdsAppend(Clean(before), last.entry);
      }
    }
  }

  /** A chat is loaded iff the file holds a list for it, and then with exactly that list's usable items. */
  lemma LoadKeepsChats(d: Disk, c: Chat)
    ensures At(Load(d).log, c) == if d.File? && d.log.Chats? && c in d.log.chats && d.log.chats[c].Items?
                                  then Some(Clean(d.log.chats[c].items)) else None
  {
  }

  /** In the order of the file. */
  lemma CleanKeepsOrder(items: seq<RawItem>, n: nat)
    requires n <= |items|
    ensures Clean(items[..n]) <= Clean(items)
    decreases |items|
  {
    if n < |items| {
      assert items[..|items| - 1][..n] == items[..n];
      CleanKeepsOrder(items[..|items| - 1], n);
    } else {
      assert items[..n] == items;
    }
  }

  // Who will save what is owed?

  /** A disk write has failed since a save was last scheduled or begun. */
  predicate FailedSince(d: Disk, ops: seq<Op>, cap: Option<int>) {
    ops != [] &&
    var before, op := ops[..|ops| - 1], ops[|ops| - 1];
    var s := Run(d, before, cap);
    match op
    case Change(c) => !Schedules(s.memory, c) && FailedSince(d, before, cap)
    case WriteEnds(which, ok) => (which < |s.writing| && !ok) || FailedSince(d, before, cap)
    case _ => !Writes(s, op) && FailedSince(d, before, cap)
  }

  /** Over every run a save is owed iff the timer is armed or a write has failed since. So whenever
      something is owed the timer will see to it, unless a failed write is all there is. */
  lemma {:induction false} OwedIffArmedOrFailed(d: Disk, ops: seq<Op>, cap: Option<int>)
    ensures var s := Run(d, ops, cap); s.dirty <==> s.timer || FailedSince(d, ops, cap)
  {
    if ops != [] {
      OwedIffArmedOrFailed(d, ops[..|ops| - 1], cap);
    }
  }

  /** A failed timer write does leave a save owed that nobody has scheduled. */
  lemma FailedWriteLeavesNoTimer(cap: Option<int>)
    ensures var s := Run(Absent, [Change(RegisterNode("n", "a")), TimerFires, WriteEnds(0, false)], cap);
            s.dirty && !s.timer && s.writing == [] && s.disk == Absent && s.memory.nodeToTree == map["n" := "a"]
  {
    var x := Change(RegisterNode("n", "a"));
    var a := BLANK.(nodeToTree := map["n" := "a"]);
    assert Run(Absent, [], cap) == Store(BLANK, false, false, Absent, []);
    RunAppend(Absent, [], x, cap);
    assert [] + [x] == [x] && [x] + [TimerFires] == [x, TimerFires];
    assert Run(Absent, [x], cap) == Store(a, true, true, Absent, []);
    RunAppend(Absent, [x], TimerFires, cap);
    assert Run(Absent, [x, TimerFires], cap) == Store(a, false, false, Absent, [Snapshot(a)]);
    RunAppend(Absent, [x, TimerFires], WriteEnds(0, false), cap);
    assert [x, TimerFires] + [WriteEnds(0, false)] == [x, TimerFires, WriteEnds(0, false)];
  }

  /** Removing an empty tree changes memory without owing a save; it is safe iff one is owed
      already. */
  lemma EmptyTreeRemovalIff(s: Store, root: Id, cap: Option<int>)
    requires Healthy(s) && root in s.memory.trees && s.memory.trees[root] == EmptyTree
    ensures Durable(Step(s, Change(RemoveTree(root)), cap)) <==> s.dirty
  {
    var s' := Step(s, Change(RemoveTree(root)), cap);
    assert root !in s'.memory.trees;
    if s.writing != [] {
      assert s'.writing[0] == s.writing[0];
    }
  }

  /** Two overlapping writes can end in the wrong order: the older snapshot stays on disk, and
      nothing is dirty. */
  lemma OverlappingWritesLose(cap: Option<int>)
    ensures var s := Run(Absent, [Change(RegisterNode("n", "a")), TimerFires, Change(RegisterNode("n", "b")), Flush,
                                  WriteEnds(1, true), WriteEnds(0, true)], cap);
            && !s.dirty && s.writing == []
            && s.memory.nodeToTree == map["n" := "b"] && Load(s.disk).nodeToTree == map["n" := "a"]
  {
    var first := [Change(RegisterNode("n", "a")), TimerFires, Change(RegisterNode("n", "b")), Flush];
    var a, b := BLANK.(nodeToTree := map["n" := "a"]), BLANK.(nodeToTree := map["n" := "b"]);
    OverlapBegins(cap);
    var s4 := Store(b, false, false, Absent, [Snapshot(a), Snapshot(b)]);
    var s5 := Store(b, false, false, Snapshot(b), [Snapshot(a)]);
    assert Step(s4, WriteEnds(1, true), cap) == s5;
    assert Step(s5, WriteEnds(0, true), cap) == Store(b, false, false, Snapshot(a), []);
    RunAppend(Absent, first, WriteEnds(1, true), cap);
    RunAppend(Absent, first + [WriteEnds(1, true)], WriteEnds(0, true), cap);
    assert first + [WriteEnds(1, true)] + [WriteEnds(0, true)]
      == [Change(RegisterNode("n", "a")), TimerFires, Change(RegisterNode("n", "b")), Flush,
          WriteEnds(1, true), WriteEnds(0, true)];
  }

  lemma RunAppend(d: Disk, ops: seq<Op>, op: Op, cap: Option<int>)
    ensures Run(d, ops + [op], cap) == Step(Run(d, ops, cap), op, cap)
  {
    assert (ops + [op])[..|ops|] == ops;
  }

  lemma OverlapBegins(cap: Option<int>)
    ensures var a, b := BLANK.(nodeToTree := map["n" := "a"]), BLANK.(nodeToTree := map["n" := "b"]);
            (Run(Absent, [Change(RegisterNode("n", "a")), TimerFires, Change(RegisterNode("n", "b")), Flush], cap)
             == Store(b, false, false, Absent, [Snapshot(a), Snapshot(b)]))
  {
    var a, b := BLANK.(nodeToTree := map["n" := "a"]), BLANK.(nodeToTree := map["n" := "b"]);
    var x, y := Change(RegisterNode("n", "a")), Change(RegisterNode("n", "b"));
    var s0 := Store(BLANK, false, false, Absent, []);
    assert Run(Absent, [], cap) == s0;
    assert Step(s0, x, cap) == Store(a, true, true, Absent, []);
    RunAppend(Absent, [], x, cap);
    assert [] + [x] == [x];
    RunAppend(Absent, [x], TimerFires, cap);
    assert [x] + [TimerFires] == [x, TimerFires];
    assert Step(Store(a, false, false, Absent, [Snapshot(a)]), y, cap) == Store(b, true, true, Absent, [Snapshot(a)]);
    RunAppend(Absent, [x, TimerFires], y, cap);
    assert [x, TimerFires] + [y] == [x, TimerFires, y];
    RunAppend(Absent, [x, TimerFires, y], Flush, cap);
    assert [x, TimerFires, y] + [Flush] == [x, TimerFires, y, Flush];
    assert [Snapshot(a)] + [Snapshot(b)] == [Snapshot(a), Snapshot(b)];
  }
}
