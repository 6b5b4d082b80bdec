/** The session pool of cli/manager.py: four dictionaries kept in step under one lock. A session
    object is represented by its creation number. */
module SessionManager {
  import opened Base

  type Id = string
  type Session = nat

  /** The four maps, how many sessions were created, and which had `stop` called on them. */
  datatype State = State(
    sessions: map<Id, Session>,
    pending: map<Id, Session>,
    tempToReal: map<Id, Id>,
    realToTemp: map<Id, Id>,
    created: nat,
    stopAttempted: set<Session>)

  const FRESH := State(map[], map[], map[], map[], 0, {})

  /** `generated` is the id drawn when none is given. `cancelled` says that the task was cancelled
      inside `session.stop()`, the only way out of it by exception; an aborted stop_all has tried
      only some of the sessions. */
  datatype Op =
    | GetOrCreate(id: Id, generated: Id)
    | Register(temp: Id, realId: Id)
    | Remove(id: Id, cancelled: bool)
    | StopAll(aborted: Option<set<Session>>)

  function Lookup(s: State, id: Id): Option<(Session, Id)> {
    if id == "" then None
    else
      var key := if id in s.tempToReal then s.tempToReal[id] else id;
      if key in s.sessions then Some((s.sessions[key], key))
      else if key in s.pending then Some((s.pending[key], key))
      else None
  }

  function NewKey(id: Id, generated: Id): Id {
    if id == "" then generated else id
  }

  function Step(s: State, op: Op): State {
    match op
    case GetOrCreate(id, generated) =>
      if Lookup(s, id).Some? then s
      else s.(pending := s.pending[NewKey(id, generated) := s.created], created := s.created + 1)
    case Register(temp, realId) =>
      if temp !in s.pending then s
      else s.(pending := s.pending - {temp},
              sessions := s.sessions[realId := s.pending[temp]],
              tempToReal := s.tempToReal[temp := realId],
              realToTemp := s.realToTemp[realId := temp])
    case Remove(id, cancelled) =>
      if id in s.pending then
        s.(pending := s.pending - {id}, stopAttempted := s.stopAttempted + {s.pending[id]})
      else if id in s.sessions then
        var s1 := s.(sessions := s.sessions - {id}, stopAttempted := s.stopAttempted + {s.sessions[id]});
        if cancelled || id !in s.realToTemp then s1
        else s1.(realToTemp := s.realToTemp - {id}, tempToReal := s.tempToReal - {s.realToTemp[id]})
      else s
    case StopAll(None) =>
      State(map[], map[], map[], map[], s.created, s.stopAttempted + s.sessions.Values + s.pending.Values)
    case StopAll(Some(tried)) =>
      s.(stopAttempted := s.stopAttempted + (tried * (s.sessions.Values + s.pending.Values)))
  }

  function Run(ops: seq<Op>): State {
    if ops == [] then FRESH else Step(Run(ops[..|ops| - 1]), ops[|ops| - 1])
  }

  ghost predicate Inverse(s: State) {
    && (forall t :: t in s.tempToReal ==> s.tempToReal[t] in s.realToTemp && s.realToTemp[s.tempToReal[t]] == t)
    && (forall r :: r in s.realToTemp ==> s.realToTemp[r] in s.tempToReal && s.tempToReal[s.realToTemp[r]] == r)
  }

  /** The id maps name live sessions only, and an id never means two things. */
  ghost predicate KeysAgree(s: State) {
    && (forall r :: r in s.realToTemp <==> r in s.sessions)
    && (forall k :: k in s.pending ==> k !in s.sessions && k !in s.tempToReal)
    && (forall t :: t in s.tempToReal && t in s.sessions ==> s.tempToReal[t] == t)
  }

  ghost predicate HeldAs(s: State, n: Session) {
    (exists k :: k in s.sessions && s.sessions[k] == n) || (exists k :: k in s.pending && s.pending[k] == n)
  }

  /** No session sits under two keys. */
  ghost predicate HeldOnce(s: State) {
    && (forall k, l :: k in s.sessions && l in s.sessions && s.sessions[k] == s.sessions[l] ==> k == l)
    && (forall k, l :: k in s.pending && l in s.pending && s.pending[k] == s.pending[l] ==> k == l)
    && (forall k, l :: k in s.sessions && l in s.pending ==> s.sessions[k] != s.pending[l])
    && (forall k :: k in s.sessions ==> s.sessions[k] < s.created)
    && (forall k :: k in s.pending ==> s.pending[k] < s.created)
  }

  /** Every session ever created is still held, or somebody tried to stop it. */
  ghost predicate NoneLeaked(s: State) {
    forall n :: 0 <= n < s.created ==> n in s.stopAttempted || HeldAs(s, n)
  }

  ghost predicate Sound(s: State) {
    Inverse(s) && KeysAgree(s) && HeldOnce(s) && NoneLeaked(s)
  }

  /** What each call must observe: generated ids are unused, or name a session that was already
      told to stop; a real id is new, or equals the temporary one; removal of an active session is
      not cancelled half-way. */
  ghost predicate Careful(s: State, op: Op) {
    match op
    case GetOrCreate(id, generated) =>
      id == "" ==> generated !in s.sessions && generated !in s.tempToReal
                   && (generated in s.pending ==> s.pending[generated] in s.stopAttempted)
    case Register(temp, realId) =>
      temp in s.pending ==>
        realId !in s.sessions && (realId == temp || (realId !in s.pending && realId !in s.tempToReal))
    case Remove(id, cancelled) => !(cancelled && id !in s.pending && id in s.sessions)
    case StopAll(_) => true
  }

  lemma HeldStays(s: State, s': State, n: Session)
    requires HeldAs(s, n)
    requires forall k :: k in s.sessions ==> k in s'.sessions && s'.sessions[k] == s.sessions[k]
    requires forall k :: k in s.pending && s.pending[k] == n ==> HeldAs(s', n)
    ensures HeldAs(s', n)
  {
    if k :| k in s.sessions && s.sessions[k] == n {
      assert s'.sessions[k] == n;
    }
  }

  lemma CreateSound(s: State, op: Op)
    requires Sound(s) && op.GetOrCreate?
    ensures Sound(Step(s, op)) <==> Careful(s, op)
  {
    var s' := Step(s, op);
    if Lookup(s, op.id).None? {
      var key := NewKey(op.id, op.generated);
      assert s'.pending[key] == s.created;
      assert HeldAs(s', s.created);
      forall n | 0 <= n < s.created && n !in s.stopAttempted && !(key in s.pending && s.pending[key] == n)
        ensures HeldAs(s', n)
      {
        forall k | k in s.pending && s.pending[k] == n ensures HeldAs(s', n) {
          assert s'.pending[k] == n;
        }
        HeldStays(s, s', n);
      }
      if key in s.pending {
        var n := s.pending[key];
        assert n < s.created && !HeldAs(s', n);
      }
    }
  }

  lemma RegisterLeaksNothing(s: State, temp: Id, realId: Id)
    requires NoneLeaked(s) && temp in s.pending && realId !in s.sessions
    ensures NoneLeaked(Step(s, Register(temp, realId)))
  {
    var s' := Step(s, Register(temp, realId));
    forall n | 0 <= n < s.created && n !in s.stopAttempted
      ensures HeldAs(s', n)
    {
      assert HeldAs(s, n);
      if k :| k in s.sessions && s.sessions[k] == n {
        assert s'.sessions[k] == n;
      } else {
        var k :| k in s.pending && s.pending[k] == n;
        if k == temp {
          assert s'.sessions[realId] == n;
        } else {
          assert s'.pending[k] == n;
        }
      }
    }
  }

  lemma CarefulRegisterSound(s: State, temp: Id, realId: Id)
    requires Sound(s) && temp in s.pending && Careful(s, Register(temp, realId))
    ensures Sound(Step(s, Register(temp, realId)))
  {
    RegisterLeaksNothing(s, temp, realId);
    assert realId !in s.realToTemp;
  }

  lemma CarelessRegisterUnsound(s: State, temp: Id, realId: Id)
    requires Inverse(s) && KeysAgree(s) && temp in s.pending && !Careful(s, Register(temp, realId))
    ensures !(Inverse(Step(s, Register(temp, realId))) && KeysAgree(Step(s, Register(temp, realId))))
  {
    var s' := Step(s, Register(temp, realId));
    if realId in s.sessions {
      var earlier := s.realToTemp[realId];
      assert s'.tempToReal[earlier] == realId && s'.realToTemp[realId] == temp;
    } else if realId in s.pending {
      assert realId in s'.pending && realId in s'.sessions;
    } else {
      assert s.tempToReal[realId] in s.realToTemp;
      assert realId in s'.sessions && s'.tempToReal[realId] != realId;
    }
  }

  lemma RegisterSound(s: State, op: Op)
    requires Sound(s) && op.Register?
    ensures Sound(Step(s, op)) <==> Careful(s, op)
  {
    if op.temp in s.pending {
      if Careful(s, op) {
        CarefulRegisterSound(s, op.temp, op.realId);
      } else {
        CarelessRegisterUnsound(s, op.temp, op.realId);
      }
    }
  }

  lemma RemovePendingSound(s: State, id: Id, cancelled: bool)
    requires Sound(s) && id in s.pending
    ensures Sound(Step(s, Remove(id, cancelled)))
  {
    var s' := Step(s, Remove(id, cancelled));
    forall n | 0 <= n < s.created && n !in s'.stopAttempted
      ensures HeldAs(s', n)
    {
      assert HeldAs(s, n);
      forall k | k in s.pending && s.pending[k] == n ensures HeldAs(s', n) {
        assert s'.pending[k] == n;
      }
      HeldStays(s, s', n);
    }
  }

  lemma RemoveActiveLeaksNothing(s: State, id: Id, cancelled: bool)
    requires NoneLeaked(s) && id !in s.pending && id in s.sessions
    ensures NoneLeaked(Step(s, Remove(id, cancelled)))
  {
    var s' := Step(s, Remove(id, cancelled));
    forall n | 0 <= n < s.created && n !in s'.stopAttempted
      ensures HeldAs(s', n)
    {
      assert HeldAs(s, n);
      if k :| k in s.sessions && s.sessions[k] == n {
        assert s'.sessions[k] == n;
      } else {
        var k :| k in s.pending && s.pending[k] == n;
        assert s'.pending[k] == n;
      }
    }
  }

  lemma RemoveActiveSound(s: State, id: Id)
    requires Sound(s) && id !in s.pending && id in s.sessions
    ensures Sound(Step(s, Remove(id, false)))
  {
    RemoveActiveLeaksNothing(s, id, false);
    assert id in s.realToTemp;
    var temp := s.realToTemp[id];
    assert s.tempToReal[temp] == id;
  }

  lemma RemoveSound(s: State, op: Op)
    requires Sound(s) && op.Remove?
    ensures Sound(Step(s, op)) <==> Careful(s, op)
  {
    if op.id in s.pending {
      RemovePendingSound(s, op.id, op.cancelled);
    } else if op.id in s.sessions {
      if op.cancelled {
        var s' := Step(s, op);
        assert op.id in s'.realToTemp && op.id !in s'.sessions;
        assert !KeysAgree(s');
      } else {
        RemoveActiveSound(s, op.id);
      }
    }
  }

  lemma StopAllSound(s: State, op: Op)
    requires Sound(s) && op.StopAll?
    ensures Sound(Step(s, op))
  {
    var s' := Step(s, op);
    forall n | 0 <= n < s.created && n !in s'.stopAttempted ensures HeldAs(s', n) {
      if k :| k in s.sessions && s.sessions[k] == n {
        assert n in s.sessions.Values;
        assert s'.sessions[k] == n;
      } else {
        var k :| k in s.pending && s.pending[k] == n;
        assert n in s.pending.Values;
        assert s'.pending[k] == n;
      }
    }
  }

  /** One call keeps the pool sound exactly when it is careful. */
  lemma StepSoundIff(s: State, op: Op)
    requires Sound(s)
    ensures Sound(Step(s, op)) <==> Careful(s, op)
  {
    match op
    case GetOrCreate(_, _) => CreateSound(s, op);
    case Register(_, _) => RegisterSound(s, op);
    case Remove(_, _) => RemoveSound(s, op);
    case StopAll(_) => StopAllSound(s, op);
  }

  /** So every run of careful calls keeps the maps mutually inverse over live sessions, the key
      spaces apart, and leaks no session. */
  lemma {:induction false} CarefulRunsSound(ops: seq<Op>)
    requires forall i :: 0 <= i < |ops| ==> Careful(Run(ops[..i]), ops[i])
    ensures Sound(Run(ops))
  {
    if ops != [] {
      var before := ops[..|ops| - 1];
      assert forall i :: 0 <= i < |before| ==> before[..i] == ops[..i] && before[i] == ops[i];
      CarefulRunsSound(before);
      StepSoundIff(Run(before), ops[|ops| - 1]);
    }
  }

  /** After registration the temporary and the real id find the same session, under the real id. */
  lemma BothIdsFindSession(ops: seq<Op>, temp: Id)
    requires forall i :: 0 <= i < |ops| ==> Careful(Run(ops[..i]), ops[i])
    requires temp != "" && temp in Run(ops).tempToReal && Run(ops).tempToReal[temp] != ""
    ensures var s := Run(ops); var realId := s.tempToReal[temp];
            realId in s.sessions && Lookup(s, temp) == Lookup(s, realId) == Some((s.sessions[realId], realId))
  {
    CarefulRunsSound(ops);
  }

  // What each call achieves.

  /** A session is found after it was asked for, under the id returned; nothing is created when one
      was there, and no other id is affected. */
  lemma CreateFinds(s: State, id: Id, generated: Id)
    requires Sound(s) && Careful(s, GetOrCreate(id, generated)) && (id == "" ==> generated != "")
    ensures var s' := Step(s, GetOrCreate(id, generated)); var key := NewKey(id, generated);
            && (Lookup(s, id).Some? ==> s' == s)
            && (Lookup(s, id).None? ==> Lookup(s', key) == Some((s.created, key)) && s'.created == s.created + 1)
            && (forall other :: other != key ==> Lookup(s', other) == Lookup(s, other))
  {
  }

  /** Registration: both ids lead to the session that was pending, under the real id; every other id
      leads where it did. */
  lemma RegisterMoves(s: State, temp: Id, realId: Id)
    requires Sound(s) && Careful(s, Register(temp, realId)) && temp in s.pending && temp != "" && realId != ""
    ensures var s' := Step(s, Register(temp, realId));
            && Lookup(s', temp) == Lookup(s', realId) == Some((s.pending[temp], realId))
            && s'.tempToReal == s.tempToReal[temp := realId] && temp !in s'.pending
            && (forall other :: other != temp && other != realId ==> Lookup(s', other) == Lookup(s, other))
  {
  }

  /** No map mentions the id, as key or as value. */
  ghost predicate KnownNowhere(s: State, id: Id) {
    && id !in s.pending && id !in s.sessions && id !in s.tempToReal && id !in s.realToTemp
    && (forall t :: t in s.tempToReal ==> s.tempToReal[t] != id)
    && (forall r :: r in s.realToTemp ==> s.realToTemp[r] != id)
  }

  lemma RemovePendingForgets(s: State, id: Id)
    requires Sound(s) && id in s.pending
    ensures var s' := Step(s, Remove(id, false));
            KnownNowhere(s', id) && s.pending[id] in s'.stopAttempted && !HeldAs(s', s.pending[id])
  {
  }

  lemma RemoveActiveForgets(s: State, id: Id)
    requires Sound(s) && id in s.sessions
    ensures var s' := Step(s, Remove(id, false));
            KnownNowhere(s', id) && s.sessions[id] in s'.stopAttempted && !HeldAs(s', s.sessions[id])
  {
    var temp := s.realToTemp[id];
    assert s.tempToReal[temp] == id;
  }

  /** Removal: the session was told to stop and is held no more, and its id is known nowhere. */
  lemma RemoveForgets(s: State, id: Id)
    requires Sound(s) && (id in s.pending || id in s.sessions)
    ensures var s' := Step(s, Remove(id, false)); var n := if id in s.pending then s.pending[id] else s.sessions[id];
            KnownNowhere(s', id) && Lookup(s', id) == None && n in s'.stopAttempted && !HeldAs(s', n)
  {
    if id in s.pending {
      RemovePendingForgets(s, id);
    } else {
      RemoveActiveForgets(s, id);
    }
  }

  /** A removal that is cancelled has told the session to stop and holds it no more. */
  lemma CancelledRemovalStops(s: State, id: Id)
    requires Sound(s) && (id in s.pending || id in s.sessions)
    ensures var s' := Step(s, Remove(id, true)); var n := if id in s.pending then s.pending[id] else s.sessions[id];
            n in s'.stopAttempted && !HeldAs(s', n) && (forall k :: HeldAs(s', k) <==> HeldAs(s, k) && k != n)
  {
    var s' := Step(s, Remove(id, true));
    var n := if id in s.pending then s.pending[id] else s.sessions[id];
    forall k | HeldAs(s, k) && k != n ensures HeldAs(s', k) {
      if i :| i in s.sessions && s.sessions[i] == k {
        assert s'.sessions[i] == k;
      } else {
        var i :| i in s.pending && s.pending[i] == k;
        assert s'.pending[i] == k;
      }
    }
  }

  /** Every other id leads where it did, except the temporary id of the removed session. */
  lemma RemoveKeepsOthers(s: State, id: Id, other: Id)
    requires Sound(s) && (id in s.pending || id in s.sessions)
    requires other != id && !(id in s.realToTemp && s.realToTemp[id] == other)
    ensures Lookup(Step(s, Remove(id, false)), other) == Lookup(s, other)
  {
    if other in s.tempToReal {
      assert s.realToTemp[s.tempToReal[other]] == other;
    }
  }

  /** Stopping all: every held session was told to stop, and nothing is left to be found. */
  lemma StopAllEmpties(s: State, id: Id, n: Session)
    ensures var s' := Step(s, StopAll(None));
            && s'.sessions == map[] && s'.pending == map[] && s'.tempToReal == map[] && s'.realToTemp == map[]
            && Lookup(s', id) == None && s.stopAttempted <= s'.stopAttempted
            && (HeldAs(s, n) ==> n in s'.stopAttempted)
  {
    if k :| k in s.sessions && s.sessions[k] == n {
      assert n in s.sessions.Values;
    }
    if k :| k in s.pending && s.pending[k] == n {
      assert n in s.pending.Values;
    }
  }

  /** After careful calls, stopping all means that every session ever created was told to stop. */
  lemma StopAllReachesEverySession(ops: seq<Op>, n: Session)
    requires forall i :: 0 <= i < |ops| ==> Careful(Run(ops[..i]), ops[i])
    requires n < Run(ops).created
    ensures n in Step(Run(ops), StopAll(None)).stopAttempted
  {
    CarefulRunsSound(ops);
    StopAllEmpties(Run(ops), "", n);
  }

  /** An aborted stop_all leaves every session where it was, and has told some of them to stop. */
  lemma AbortedStopAllKeeps(s: State, tried: set<Session>, n: Session)
    ensures var s' := Step(s, StopAll(Some(tried)));
            && (HeldAs(s', n) <==> HeldAs(s, n)) && (forall id :: Lookup(s', id) == Lookup(s, id))
            && (n in s'.stopAttempted <==> n in s.stopAttempted || (n in tried && HeldAs(s, n)))
  {
    assert n in s.sessions.Values + s.pending.Values <==> HeldAs(s, n);
  }

  /** Careless calls do leak: two runs that end with a running session held nowhere. */
  lemma ReusedRealIdLeaks()
    ensures var s := Run([GetOrCreate("", "a"), Register("a", "r"), GetOrCreate("", "b"), Register("b", "r")]);
            s.created == 2 && 0 !in s.stopAttempted && !HeldAs(s, 0)
  {
    var ops := [GetOrCreate("", "a"), Register("a", "r"), GetOrCreate("", "b"), Register("b", "r")];
    assert ops[..3][..2] == ops[..2] && ops[..2][..1] == ops[..1] && ops[..1][..0] == [];
    assert Run([]) == FRESH;
    assert Run(ops[..1]) == FRESH.(pending := map["a" := 0], created := 1);
    assert Run(ops[..2]).sessions == map["r" := 0] && Run(ops[..2]).pending == map[];
    assert Run(ops[..3]).pending == map["b" := 1] && Run(ops[..3]).sessions == map["r" := 0];
    assert Run(ops).sessions == map["r" := 1] && Run(ops).pending == map[];
  }

  class CLISessionManager {
    var sessions: map<Id, Session>
    var pendingSessions: map<Id, Session>
    var tempToReal: map<Id, Id>
    var realToTemp: map<Id, Id>
    var nextSession: nat
    ghost var stopAttempted: set<Session>

    ghost function Fields(): State
      reads this
    {
      State(sessions, pendingSessions, tempToReal, realToTemp, nextSession, stopAttempted)
    }

    constructor ()
      ensures Fields() == FRESH && Sound(Fields())
    {
      sessions, pendingSessions, tempToReal, realToTemp := map[], map[], map[], map[];
      nextSession, stopAttempted := 0, {};
    }

    /** Returns (session, id, is new). */
    method GetOrCreateSession(id: Id, generated: Id) returns (session: Session, key: Id, isNew: bool)
      modifies this
      ensures Fields() == Step(old(Fields()), GetOrCreate(id, generated))
      ensures isNew <==> Lookup(old(Fields()), id).None?
      ensures if isNew then session == old(nextSession) && key == NewKey(id, generated)
              else Lookup(old(Fields()), id) == Some((session, key))
    {
      if id != "" {
        var lookupId := if id in tempToReal then tempToReal[id] else id;
        if lookupId in sessions {
          return sessions[lookupId], lookupId, false;
        }
        if lookupId in pendingSessions {
          return pendingSessions[lookupId], lookupId, false;
        }
      }
      var tempId := if id != "" then id else generated;
      session := nextSession;
      nextSession := nextSession + 1;
      pendingSessions := pendingSessions[tempId := session];
      return session, tempId, true;
    }

    method RegisterRealSessionId(temp: Id, realId: Id) returns (found: bool)
      modifies this
      ensures Fields() == Step(old(Fields()), Register(temp, realId)) && (found <==> temp in old(pendingSessions))
    {
      if temp !in pendingSessions {
        return false;
      }
      var session := pendingSessions[temp];
      pendingSessions := pendingSessions - {temp};
      sessions := sessions[realId := session];
      tempToReal := tempToReal[temp := realId];
      realToTemp := realToTemp[realId := temp];
      return true;
    }

    method Stop(session: Session)
      modifies this`stopAttempted
      ensures stopAttempted == old(stopAttempted) + {session}
    {
      stopAttempted := stopAttempted + {session};
    }

    /** None when the cancellation escapes from `stop`. */
    method RemoveSession(id: Id, cancelled: bool) returns (removed: Option<bool>)
      modifies this
      ensures Fields() == Step(old(Fields()), Remove(id, cancelled))
      ensures var known := id in old(pendingSessions) || id in old(sessions);
              removed == if known && cancelled then None else Some(known)
    {
      if id in pendingSessions {
        var session := pendingSessions[id];
        pendingSessions := pendingSessions - {id};
        Stop(session);
        return if cancelled then None else Some(true);
      }
      if id in sessions {
        var session := sessions[id];
        sessions := sessions - {id};
        Stop(session);
        if cancelled {
          return None;
        }
        if id in realToTemp {
          var tempId := realToTemp[id];
          realToTemp := realToTemp - {id};
          tempToReal := tempToReal - {tempId};
        }
        return Some(true);
      }
      return Some(false);
    }

    /** stop_all that runs to its end; order does not matter. */
    method StopAllSessions()
      modifies this
      ensures Fields() == Step(old(Fields()), StopAll(None))
    {
      var left := sessions.Values + pendingSessions.Values;
      ghost var all := left;
      while left != {}
        invariant left <= all && stopAttempted + left == old(stopAttempted) + all
        invariant sessions == old(sessions) && pendingSessions == old(pendingSessions)
            && nextSession == old(nextSession)
        decreases left
      {
        var session :| session in left;
        left := left - {session};
        Stop(session);
      }
      assert stopAttempted == old(stopAttempted) + all;
      sessions, pendingSessions, tempToReal, realToTemp := map[], map[], map[], map[];
    }
  }
}
