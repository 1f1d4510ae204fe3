/**
 * The connection registry: `sessionsMap`, a map from room id to the list of
 * sessions connected to that room, and the "send only to open sessions"
 * filter that every broadcast loop applies.
 */
module Registry {
  import opened RoomPath

  /** A WebSocket session: its id and the path of the URI it connected to. */
  datatype Session = Session(id: string, path: string)
  {
    function RoomId(): string { ExtractRoomId(path) }
  }

  type Sessions = map<string, seq<Session>>

  /** `sessionsMap.getOrDefault(roomId, Collections.emptyList())`. */
  function Lookup(reg: Sessions, roomId: string): seq<Session>
  {
    if roomId in reg then reg[roomId] else []
  }

  /** `computeIfAbsent(roomId, new list).add(s)`: append `s` to its room's list. */
  function Register(reg: Sessions, roomId: string, s: Session): (reg': Sessions)
    ensures reg'.Keys == reg.Keys + {roomId}
    ensures Lookup(reg', roomId) == Lookup(reg, roomId) + [s]
    ensures forall r :: r != roomId ==> Lookup(reg', r) == Lookup(reg, r)
  {
    reg[roomId := Lookup(reg, roomId) + [s]]
  }

  /** `List.indexOf(Object)`, with `|xs|` standing for -1: the first index holding `x`. */
  function FirstIndex(xs: seq<Session>, x: Session): (i: nat)
    ensures i <= |xs|
    ensures i < |xs| <==> x in xs
    ensures i < |xs| ==> xs[i] == x
    ensures x !in xs[..i]
  {
    if xs == [] then 0
    else if xs[0] == x then 0
    else
      var j := FirstIndex(xs[1..], x);
      assert xs[..j + 1] == [xs[0]] + xs[1..][..j];
      j + 1
  }

  /**
   * `List.remove(Object)`: find the first index holding `x` and splice it
   * out, keeping the order of the others; a list without `x` is left as it is.
   */
  function RemoveFirst(xs: seq<Session>, x: Session): (ys: seq<Session>)
    ensures x !in xs ==> ys == xs
    ensures x in xs ==> |ys| == |xs| - 1
    ensures x in xs ==> exists k :: 0 <= k < |xs| && xs[k] == x && x !in xs[..k] && ys == xs[..k] + xs[k + 1..]
    ensures multiset(ys) == multiset(xs) - multiset{x}
  {
    var i := FirstIndex(xs, x);
    if i < |xs| then
      SpliceMultiset(xs, i);
      xs[..i] + xs[i + 1..]
    else xs
  }

  /** Splicing out one index takes exactly that element's copy out of the list. */
  lemma SpliceMultiset(xs: seq<Session>, i: nat)
    requires i < |xs|
    ensures multiset(xs[..i] + xs[i + 1..]) == multiset(xs) - multiset{xs[i]}
  {
    assert xs == xs[..i] + [xs[i]] + xs[i + 1..];
  }

  /** Remove `s` from its room's list, and the room's key once the list is empty. */
  function Unregister(reg: Sessions, roomId: string, s: Session): (reg': Sessions)
    ensures var rest := RemoveFirst(Lookup(reg, roomId), s);
      && Lookup(reg', roomId) == rest
      && (roomId in reg' <==> rest != [])
    ensures reg'.Keys <= reg.Keys
    ensures forall r :: r != roomId ==> Lookup(reg', r) == Lookup(reg, r)
  {
    var rest := RemoveFirst(Lookup(reg, roomId), s);
    if rest == [] then reg - {roomId} else reg[roomId := rest]
  }

  /** No session occurs twice. */
  ghost predicate Distinct(xs: seq<Session>)
  {
    forall s :: multiset(xs)[s] <= 1
  }

  /** A list without duplicates does not repeat its head, and its tail has no duplicates either. */
  lemma DistinctTail(xs: seq<Session>)
    requires Distinct(xs) && xs != []
    ensures xs[0] !in xs[1..]
    ensures Distinct(xs[1..])
  {
    assert xs == [xs[0]] + xs[1..];
    assert multiset(xs) == multiset{xs[0]} + multiset(xs[1..]);
    forall y ensures multiset(xs[1..])[y] <= 1 {
      assert multiset(xs)[y] == multiset{xs[0]}[y] + multiset(xs[1..])[y];
    }
    assert multiset(xs)[xs[0]] == 1 + multiset(xs[1..])[xs[0]];
  }

  /** Removing a session that occurs once in a list leaves none of it behind. */
  lemma RemoveFirstDistinct(xs: seq<Session>, x: Session)
    requires Distinct(xs)
    ensures x !in RemoveFirst(xs, x)
    ensures Distinct(RemoveFirst(xs, x))
  {
    var ys := RemoveFirst(xs, x);
    assert multiset(xs)[x] <= 1;
    assert multiset(ys)[x] == 0;
    forall s ensures multiset(ys)[s] <= 1 {
      assert multiset(xs)[s] <= 1;
    }
  }

  /** Unregistering undoes registering a session that was not yet in its room. */
  lemma {:induction false} UnregisterUndoesRegister(reg: Sessions, roomId: string, s: Session)
    requires roomId in reg ==> reg[roomId] != []
    requires s !in Lookup(reg, roomId)
    ensures Unregister(Register(reg, roomId, s), roomId, s) == reg
  {
    var xs := Lookup(reg, roomId);
    RemoveLast(xs, s);
    var reg' := Unregister(Register(reg, roomId, s), roomId, s);
    assert reg'.Keys == reg.Keys;
    forall r | r in reg ensures reg'[r] == reg[r] {
      assert Lookup(reg', r) == Lookup(reg, r);
    }
  }

  /** Removing the first occurrence of a value appended to a list it is absent from gives the list back. */
  lemma {:induction false} RemoveLast(xs: seq<Session>, x: Session)
    requires x !in xs
    ensures RemoveFirst(xs + [x], x) == xs
  {
    if xs != [] {
      assert (xs + [x])[1..] == xs[1..] + [x];
      RemoveLast(xs[1..], x);
    }
  }

  /** The sessions of `xs` that are open, in list order: whom a broadcast loop sends to. */
  function OpenSessions(xs: seq<Session>, open: set<Session>): (ys: seq<Session>)
    ensures |ys| <= |xs|
  {
    if xs == [] then []
    else
      assert xs == [xs[0]] + xs[1..];
      (if xs[0] in open then [xs[0]] else []) + OpenSessions(xs[1..], open)
  }

  /** A broadcast reaches exactly the listed sessions that are open, and skips exactly the others. */
  lemma {:induction false} OpenSessionsMembers(xs: seq<Session>, open: set<Session>)
    ensures forall s :: s in OpenSessions(xs, open) <==> s in xs && s in open
    ensures forall s :: s in ClosedSessions(xs, open) <==> s in xs && s !in open
  {
    if xs != [] {
      assert xs == [xs[0]] + xs[1..];
      OpenSessionsMembers(xs[1..], open);
    }
  }

  /** The filter keeps list order: it distributes over concatenation. */
  lemma {:induction false} OpenSessionsAppend(xs: seq<Session>, ys: seq<Session>, open: set<Session>)
    ensures OpenSessions(xs + ys, open) == OpenSessions(xs, open) + OpenSessions(ys, open)
  {
    if xs == [] {
      assert xs + ys == ys;
    } else {
      var head := if xs[0] in open then [xs[0]] else [];
      assert (xs + ys)[0] == xs[0];
      assert (xs + ys)[1..] == xs[1..] + ys;
      OpenSessionsAppend(xs[1..], ys, open);
      calc {
        OpenSessions(xs + ys, open);
        head + OpenSessions(xs[1..] + ys, open);
        head + (OpenSessions(xs[1..], open) + OpenSessions(ys, open));
        (head + OpenSessions(xs[1..], open)) + OpenSessions(ys, open);
        OpenSessions(xs, open) + OpenSessions(ys, open);
      }
    }
  }

  /** One more session at the end of the list is reached exactly when it is open. */
  lemma OpenSessionsSnoc(xs: seq<Session>, x: Session, open: set<Session>)
    ensures OpenSessions(xs + [x], open) == OpenSessions(xs, open) + (if x in open then [x] else [])
  {
    OpenSessionsAppend(xs, [x], open);
    assert [x][1..] == [];
  }

  /** When every session is open, a broadcast reaches the whole list in order; when none is, nobody. */
  lemma {:induction false} OpenSessionsExtremes(xs: seq<Session>, open: set<Session>)
    ensures (forall s :: s in xs ==> s in open) ==> OpenSessions(xs, open) == xs
    ensures (forall s :: s in xs ==> s !in open) ==> OpenSessions(xs, open) == []
  {
    if xs != [] {
      OpenSessionsExtremes(xs[1..], open);
    }
  }

  /** Open and closed sessions together account for the whole list: K open of K + M. */
  lemma {:induction false} OpenSessionsCount(xs: seq<Session>, open: set<Session>)
    ensures |OpenSessions(xs, open)| + |ClosedSessions(xs, open)| == |xs|
  {
    if xs != [] {
      OpenSessionsCount(xs[1..], open);
    }
  }

  /** The sessions a broadcast skips. */
  function ClosedSessions(xs: seq<Session>, open: set<Session>): (ys: seq<Session>)
    ensures |ys| <= |xs|
  {
    if xs == [] then []
    else
      assert xs == [xs[0]] + xs[1..];
      (if xs[0] in open then [] else [xs[0]]) + ClosedSessions(xs[1..], open)
  }

  /** Once a room's only session is unregistered, the room is gone and a broadcast to it reaches nobody. */
  lemma LastSessionLeaves(reg: Sessions, roomId: string, s: Session, open: set<Session>)
    requires Lookup(reg, roomId) == [s]
    ensures roomId !in Unregister(reg, roomId, s)
    ensures OpenSessions(Lookup(Unregister(reg, roomId, s), roomId), open) == []
  {
  }

  /**
   * The registry's invariant: every room listed has at least one session, no
   * session twice, and only sessions whose path names that room.
   */
  ghost predicate WellKeyed(reg: Sessions)
  {
    forall r :: r in reg ==> RoomSessions(reg[r], r)
  }

  ghost predicate RoomSessions(xs: seq<Session>, roomId: string)
  {
    && xs != []
    && Distinct(xs)
    && forall s :: s in xs ==> s.RoomId() == roomId
  }

  /** Connecting a session not yet in its room keeps the registry well keyed. */
  lemma RegisterKeepsWellKeyed(reg: Sessions, s: Session)
    requires WellKeyed(reg)
    requires s !in Lookup(reg, s.RoomId())
    ensures WellKeyed(Register(reg, s.RoomId(), s))
  {
    var roomId := s.RoomId();
    var reg' := Register(reg, roomId, s);
    var xs := Lookup(reg, roomId);
    assert multiset(xs + [s]) == multiset(xs) + multiset{s};
    forall x ensures multiset(xs + [s])[x] <= 1 {
      if x == s {
        assert multiset(xs)[s] == 0;
      }
    }
    assert RoomSessions(reg'[roomId], roomId);
    forall r | r in reg' ensures RoomSessions(reg'[r], r) {
      if r != roomId {
        assert reg'[r] == Lookup(reg', r) == Lookup(reg, r);
      }
    }
  }

  /** Removing a session from a room's list keeps what remains a valid list for that room. */
  lemma RemoveFirstKeepsRoom(xs: seq<Session>, roomId: string, s: Session)
    requires RoomSessions(xs, roomId)
    requires RemoveFirst(xs, s) != []
    ensures RoomSessions(RemoveFirst(xs, s), roomId)
  {
    var rest := RemoveFirst(xs, s);
    RemoveFirstDistinct(xs, s);
    forall x | x in rest ensures x.RoomId() == roomId {
      assert x in multiset(rest);
      assert x in multiset(xs);
    }
  }

  /** Closing a session keeps the registry well keyed, the room's key going once its list is empty. */
  lemma UnregisterKeepsWellKeyed(reg: Sessions, roomId: string, s: Session)
    requires WellKeyed(reg)
    ensures WellKeyed(Unregister(reg, roomId, s))
  {
    var reg' := Unregister(reg, roomId, s);
    if roomId in reg' {
      RemoveFirstKeepsRoom(reg[roomId], roomId, s);
    }
    forall r | r in reg' ensures RoomSessions(reg'[r], r) {
      if r != roomId {
        assert reg'[r] == Lookup(reg', r) == Lookup(reg, r);
      }
    }
  }
}
