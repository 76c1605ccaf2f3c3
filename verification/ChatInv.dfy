/** Every step of every thread keeps the invariant of the peer list. */
module ChatInv {
  import opened Runs
  import opened Lists
  import opened Chat

  ghost predicate SameStore(s: State, s': State) {
    s'.heap == s.heap && s'.list == s.list && s'.nextId == s.nextId && s'.joined == s.joined && s'.freed == s.freed
  }

  /** The parts of the program counters that a node's conditions mention. */
  ghost predicate SameHands(s: State, s': State) {
    && MainNew(s'.main) == MainNew(s.main) && ListenerNew(s'.listener) == ListenerNew(s.listener)
    && Dropping(s'.main) == Dropping(s.main)
    && (s.main.ConnInsert? ==> s'.main == s.main) && (s.listener.Insert? ==> s'.listener == s.listener)
    && (s'.main.ConnOpen? ==> s'.main == s.main)
    && (PastMark(s'.main) ==> PastMark(s.main))
  }

  /** Steps that only move a program counter and the lock. */
  lemma ControlInv(s: State, s': State)
    requires Inv(s) && SameStore(s, s') && SameHands(s, s')
    requires LockOk(s') && ListenerOk(s')
    requires if s'.main == s.main
             then (!s.running ==> !s'.running) && (s.listener.Ended? ==> s'.listener.Ended?)
             else MainOk(s')
    requires s.lock.TheThread? || s'.lock.TheThread? ==> s'.lock == s.lock
    ensures Inv(s')
  {
    forall p | p in s'.heap
      ensures NodeOk(s', p)
    {
      assert NodeOk(s, p);
    }
    forall p, q | p in s'.heap && q in s'.heap
      ensures Compatible(s', p, q)
    {
      assert Compatible(s, p, q);
    }
    if s'.main == s.main && s.main.Reap? {
      assert forall j: nat :: Unflagged(s, j) ==> Unflagged(s', j);
    }
  }

  /** s' differs from s in node x only (it may be new, gone or changed), apart from program counters. */
  ghost predicate OnlyNode(s: State, s': State, x: Ptr) {
    && (forall p :: p != x ==> (p in s'.heap <==> p in s.heap))
    && (forall p :: p != x && p in s.heap ==> s'.heap[p] == s.heap[p])
    && (forall p :: p != x ==> (p in s'.list <==> p in s.list))
  }

  /** The node that main's program counter is about. */
  function Subject(pc: MainPc): Option<Ptr> {
    match pc
    case ReapJoin(p) => Some(p)
    case TermJoin(p, _) => Some(p)
    case _ => if MainNew(pc).Some? then MainNew(pc) else Dropping(pc)
  }

  /** A change to a node that main is not about, or harmless to it, leaves main's conditions alone. */
  lemma MainKept(s: State, s': State, x: Ptr)
    requires MainOk(s) && OnlyNode(s, s', x) && s'.main == s.main
    requires s'.nextId >= s.nextId && (!s.running ==> !s'.running) && (s.listener.Ended? ==> s'.listener.Ended?)
    requires s.main.Reap? ==> s'.list == s.list && (x in s'.list ==> x in s.heap && x in s'.heap && s'.heap[x].flagged == s.heap[x].flagged)
    requires s.main.Exited? ==> s'.list == s.list
    requires s.main.TermJoin? && s.main.p == x && x in s'.heap && s'.heap[x].id == s.main.id ==>
      x in s'.list && !s'.heap[x].active
    requires Subject(s.main) == Some(x) && !s.main.TermJoin? ==>
      s.main.ReapJoin? && x in s'.list && x in s'.heap && s'.heap[x].thread.Returned?
    ensures MainOk(s')
  {
    if s.main.Reap? {
      forall j: nat | Unflagged(s, j)
        ensures Unflagged(s', j)
      {
        assert s.list[j] in s.list;
      }
    }
  }

  /** The same for the listener. */
  lemma ListenerKept(s: State, s': State, x: Ptr)
    requires ListenerOk(s) && OnlyNode(s, s', x) && s'.listener == s.listener && ListenerNew(s.listener) != Some(x)
    ensures ListenerOk(s')
  {
  }

  /** What the rest of the state says about node p is the same in s and s'. */
  ghost predicate SameFor(s: State, s': State, p: Ptr)
    requires p in s.heap
  {
    && (InHand(s, p) ==> InHand(s', p))
    && (s.main == ConnInsert(p) <==> s'.main == ConnInsert(p))
    && (s.listener == Insert(p) <==> s'.listener == Insert(p))
    && (s.lock == TheThread(p) <==> s'.lock == TheThread(p))
    && (Dropping(s.main) == Some(p) <==> Dropping(s'.main) == Some(p))
    && (s.heap[p].id in s'.freed <==> s.heap[p].id in s.freed)
    && (s.heap[p].id in s'.joined <==> s.heap[p].id in s.joined)
  }

  /** A node that has not changed keeps its conditions if it keeps its place and its hand. */
  lemma OthersKept(s: State, s': State, x: Ptr)
    requires NodesOk(s) && OnlyNode(s, s', x) && s'.nextId >= s.nextId
    requires (s'.main.ConnOpen? ==> s'.main == s.main) && (PastMark(s'.main) ==> PastMark(s.main))
    requires forall p {:trigger SameFor(s, s', p)} :: p in s.heap && p != x ==> SameFor(s, s', p)
    ensures forall p {:trigger NodeOk(s', p)} :: p in s'.heap && p != x ==> NodeOk(s', p)
    ensures forall p, q {:trigger Compatible(s', p, q)} :: p in s'.heap && q in s'.heap && p != x && q != x ==> Compatible(s', p, q)
  {
    forall p | p in s'.heap && p != x
      ensures NodeOk(s', p)
    {
      assert NodeOk(s, p) && SameFor(s, s', p);
    }
    forall p, q | p in s'.heap && q in s'.heap && p != x && q != x
      ensures Compatible(s', p, q)
    {
      assert Compatible(s, p, q);
    }
  }

  /** The invariant but for the program counters and the lock. */
  ghost predicate StoreOk(s: State) { ListOk(s) && NodesOk(s) && LogOk(s) }

  /** Who does an operation on node p: main moves on to `next`, or the listener does. */
  ghost predicate MainMoves(s: State, s': State, from: MainPc, next: MainPc) {
    s.main == from && s'.main == next && s'.listener == s.listener && s'.running == s.running
  }

  ghost predicate ListenerMoves(s: State, s': State, from: ListenerPc, next: ListenerPc) {
    s.listener == from && s'.listener == next && s'.main == s.main && s'.running == s.running
  }

  /** malloc and the fetch-and-add: a new node with the next id, in its creator's hand. */
  lemma AllocStore(s: State, s': State, q: Ptr, a: Addr, byMain: bool)
    requires Inv(s) && q !in s.heap
    requires SameStore(Alloc(s, q, a, byMain), s') && s'.lock == s.lock
    requires if byMain then MainMoves(s, s', ConnOpen(a), ConnInsert(q)) else ListenerMoves(s, s', Accept, Insert(q))
    ensures StoreOk(s') && OnlyNode(s, s', q)
  {
    assert q !in s.list;
    OthersKept(s, s', q);
    forall p | p in s.heap
      ensures Compatible(s', p, q) && Compatible(s', q, p)
    {
      assert NodeOk(s, p);
    }
    assert NodeOk(s', q);
  }

  lemma AllocInv(s: State, s': State, q: Ptr, a: Addr, byMain: bool)
    requires Inv(s) && q !in s.heap
    requires SameStore(Alloc(s, q, a, byMain), s') && s'.lock == s.lock
    requires if byMain then MainMoves(s, s', ConnOpen(a), ConnInsert(q)) else ListenerMoves(s, s', Accept, Insert(q))
    ensures Inv(s')
  {
    AllocStore(s, s', q, a, byMain);
    if byMain {
      ListenerKept(s, s', q);
    } else {
      MainKept(s, s', q);
    }
  }

  /** pthread_create succeeds: the node leaves its creator's hand with a running thread. */
  lemma SpawnStore(s: State, s': State, p: Ptr)
    requires Inv(s) && p in s.heap && SameStore(SetThread(s, p, Receiving), s') && s'.lock == s.lock
    requires MainMoves(s, s', ConnSpawn(p), Idle) || ListenerMoves(s, s', Spawn(p), Loop)
    ensures StoreOk(s') && OnlyNode(s, s', p)
  {
    assert NodeOk(s, p);
    OthersKept(s, s', p);
    assert NodeOk(s', p);
    forall q | q in s.heap
      ensures Compatible(s', p, q) && Compatible(s', q, p)
    {
      assert Compatible(s, p, q) && Compatible(s, q, p);
    }
  }

  lemma SpawnInv(s: State, s': State, p: Ptr)
    requires Inv(s) && p in s.heap && SameStore(SetThread(s, p, Receiving), s') && s'.lock == s.lock
    requires MainMoves(s, s', ConnSpawn(p), Idle) || ListenerMoves(s, s', Spawn(p), Loop)
    ensures Inv(s')
  {
    SpawnStore(s, s', p);
    if s.main == ConnSpawn(p) {
      ListenerKept(s, s', p);
    } else {
      MainKept(s, s', p);
    }
  }

  /** add_connection links the new node in front. */
  lemma PushStore(s: State, s': State, p: Ptr)
    requires Inv(s) && s.lock.NoOne? && SameStore(Push(s, p), s') && !s'.lock.TheThread?
    requires MainMoves(s, s', ConnInsert(p), ConnLinked(p)) || ListenerMoves(s, s', Insert(p), Linked(p))
    ensures StoreOk(s') && OnlyNode(s, s', p)
  {
    assert NodeOk(s, p);
    DistinctCons(p, s.list);
    OthersKept(s, s', p);
    forall q | q in s.heap
      ensures Compatible(s', p, q) && Compatible(s', q, p)
    {
      assert Compatible(s, p, q) && Compatible(s, q, p);
    }
  }

  lemma PushInv(s: State, s': State, p: Ptr)
    requires Inv(s) && s.lock.NoOne? && SameStore(Push(s, p), s')
    requires || (MainMoves(s, s', ConnInsert(p), ConnLinked(p)) && s'.lock.TheMain?)
             || (ListenerMoves(s, s', Insert(p), Linked(p)) && s'.lock.TheListener?)
    ensures Inv(s')
  {
    PushStore(s, s', p);
    if s.main == ConnInsert(p) {
      ListenerKept(s, s', p);
    } else {
      MainKept(s, s', p);
    }
  }

  ghost predicate MainDrops(s: State, s': State, p: Ptr) {
    || MainMoves(s, s', ConnUndo(p), ConnUnlinked)
    || MainMoves(s, s', ReapRemove(p), Reap(0))
    || MainMoves(s, s', TermRemove(p), Idle)
  }

  /** Unlinking and freeing a node, by whoever is entitled to. */
  lemma DropStore(s: State, s': State, p: Ptr)
    requires Inv(s) && p in s.heap && SameStore(Drop(s, p), s') && !s.lock.TheThread? && !s'.lock.TheThread?
    requires MainDrops(s, s', p) || ListenerMoves(s, s', Undo(p), Unlinked)
    ensures StoreOk(s') && OnlyNode(s, s', p)
  {
    DropList(s, s', p);
    DropSameAll(s, s', p);
    OthersKept(s, s', p);
  }

  lemma DropSameAll(s: State, s': State, p: Ptr)
    requires NodesOk(s) && p in s.heap && SameStore(Drop(s, p), s') && !s.lock.TheThread? && !s'.lock.TheThread?
    requires MainDrops(s, s', p) || ListenerMoves(s, s', Undo(p), Unlinked)
    ensures forall q {:trigger SameFor(s, s', q)} :: q in s.heap && q != p ==> SameFor(s, s', q)
  {
    forall q | q in s.heap && q != p
      ensures SameFor(s, s', q)
    {
      assert Compatible(s, p, q);
      DropSame(s, s', p, q);
    }
  }

  lemma DropSame(s: State, s': State, p: Ptr, q: Ptr)
    requires p in s.heap && q in s.heap && p != q && Compatible(s, p, q) && SameStore(Drop(s, p), s')
    requires !s.lock.TheThread? && !s'.lock.TheThread?
    requires (MainDrops(s, s', p) && s'.listener == s.listener) || (ListenerMoves(s, s', Undo(p), Unlinked) && s'.main == s.main)
    ensures SameFor(s, s', q)
  {
  }

  lemma DropList(s: State, s': State, p: Ptr)
    requires Inv(s) && p in s.heap && SameStore(Drop(s, p), s')
    ensures ListOk(s') && LogOk(s') && OnlyNode(s, s', p) && p !in s'.list
  {
    assert NodeOk(s, p);
    RemoveMembers(s.list, p);
    DistinctSnoc(s.freed, s.heap[p].id);
  }

  lemma DropInv(s: State, s': State, p: Ptr)
    requires Inv(s) && p in s.heap && SameStore(Drop(s, p), s') && LockOk(s') && !s.lock.TheThread? && !s'.lock.TheThread?
    requires MainDrops(s, s', p) || (ListenerMoves(s, s', Undo(p), Unlinked) && s.lock.NoOne?)
    ensures Inv(s')
  {
    DropStore(s, s', p);
    if s'.main == s.main {
      MainKept(s, s', p);
    } else {
      ListenerKept(s, s', p);
    }
  }

  /** Main has joined the thread of p. */
  lemma JoinStore(s: State, s': State, p: Ptr)
    requires Inv(s) && p in s.heap && p in s.list && s.heap[p].thread.Returned?
    requires SameStore(SetThread(s, p, Joined).(joined := s.joined + [s.heap[p].id]), s') && s'.lock == s.lock
    requires MainMoves(s, s', ReapJoin(p), ReapRelock(p)) || MainMoves(s, s', TermJoin(p, s.heap[p].id), TermRelock(p))
    ensures StoreOk(s') && OnlyNode(s, s', p)
  {
    assert NodeOk(s, p);
    forall q | q in s.heap
      ensures Compatible(s', p, q) && Compatible(s', q, p)
    {
      assert Compatible(s, p, q) && Compatible(s, q, p);
    }
    forall q | q in s.heap && q != p
      ensures SameFor(s, s', q)
    {
      assert Compatible(s, p, q);
      JoinSame(s, s', p, q);
    }
    OthersKept(s, s', p);
    DistinctSnoc(s.joined, s.heap[p].id);
    assert NodeOk(s', p);
  }

  lemma JoinSame(s: State, s': State, p: Ptr, q: Ptr)
    requires p in s.heap && q in s.heap && p != q && Compatible(s, p, q)
    requires SameStore(SetThread(s, p, Joined).(joined := s.joined + [s.heap[p].id]), s') && s'.lock == s.lock
    requires MainMoves(s, s', ReapJoin(p), ReapRelock(p)) || MainMoves(s, s', TermJoin(p, s.heap[p].id), TermRelock(p))
    ensures SameFor(s, s', q)
  {
  }

  lemma JoinInv(s: State, s': State, p: Ptr)
    requires Inv(s) && p in s.heap && p in s.list && s.heap[p].thread.Returned?
    requires SameStore(SetThread(s, p, Joined).(joined := s.joined + [s.heap[p].id]), s') && s'.lock == s.lock
    requires MainMoves(s, s', ReapJoin(p), ReapRelock(p)) || MainMoves(s, s', TermJoin(p, s.heap[p].id), TermRelock(p))
    ensures Inv(s')
  {
    JoinStore(s, s', p);
    assert NodeOk(s, p);
    ListenerKept(s, s', p);
  }

  /** In cmd_exit main joins, unlinks and frees the front node in one go. */
  lemma ExitReapInv(s: State, s': State)
    requires Inv(s) && s.main.ExitReap? && s.list != [] && s.list[0] in s.heap && s.heap[s.list[0]].thread.Returned?
    requires SameStore(Drop(SetThread(s, s.list[0], Joined), s.list[0]).(joined := s.joined + [s.heap[s.list[0]].id]), s')
    requires s'.lock == s.lock && s'.running == s.running && s'.listener == s.listener && s'.main == s.main
    ensures Inv(s')
  {
    var p := s.list[0];
    assert NodeOk(s, p);
    RemoveMembers(s.list, p);
    forall q | q in s.heap && q != p
      ensures s.heap[q].id != s.heap[p].id
    {
      assert Compatible(s, p, q);
    }
    OthersKept(s, s', p);
    DistinctSnoc(s.joined, s.heap[p].id);
    DistinctSnoc(s.freed, s.heap[p].id);
    ListenerKept(s, s', p);
  }

  /** A receive thread changes its own node and perhaps the lock, and nothing else. */
  lemma PeerChangesOnly(s: State, p: Ptr)
    requires Inv(s) && PeerStep(s, p).Some?
    ensures var s' := PeerStep(s, p).value;
      && OnlyNode(s, s', p) && p in s'.heap && NodeOk(s', p)
      && s' == s.(heap := s'.heap, lock := s'.lock)
      && s'.heap[p] == s.heap[p].(active := s'.heap[p].active, flagged := s'.heap[p].flagged, thread := s'.heap[p].thread)
      && (s'.heap[p].active ==> s.heap[p].active)
      && (s'.heap[p].flagged != s.heap[p].flagged ==> s.lock.NoOne?)
      && (s.heap[p].thread.PastSection? ==> s'.heap[p].thread.Returned?)
      && !s.heap[p].thread.NoThread? && !s.heap[p].thread.Joined? && !s.heap[p].thread.Returned?
  {
    assert NodeOk(s, p);
  }

  lemma PeerLock(s: State, p: Ptr)
    requires Inv(s) && PeerStep(s, p).Some?
    ensures LockOk(PeerStep(s, p).value)
    ensures forall q :: q in s.heap && q != p ==> (s.lock == TheThread(q) <==> PeerStep(s, p).value.lock == TheThread(q))
  {
    assert NodeOk(s, p);
  }

  /** A receive thread takes its next step. */
  lemma PeerInv(s: State, p: Ptr)
    requires Inv(s) && PeerStep(s, p).Some?
    ensures Inv(PeerStep(s, p).value)
  {
    var s' := PeerStep(s, p).value;
    PeerChangesOnly(s, p);
    PeerLock(s, p);
    PeerKeeps(s, s', p);
  }

  lemma PeerKeeps(s: State, s': State, p: Ptr)
    requires Inv(s) && OnlyNode(s, s', p) && p in s.heap && p in s'.heap && NodeOk(s', p)
    requires s' == s.(heap := s'.heap, lock := s'.lock) && LockOk(s')
    requires s'.heap[p] == s.heap[p].(active := s'.heap[p].active, flagged := s'.heap[p].flagged, thread := s'.heap[p].thread)
    requires s'.heap[p].active ==> s.heap[p].active
    requires s'.heap[p].flagged != s.heap[p].flagged ==> s.lock.NoOne?
    requires s.heap[p].thread.PastSection? ==> s'.heap[p].thread.Returned?
    requires !s.heap[p].thread.NoThread? && !s.heap[p].thread.Joined? && !s.heap[p].thread.Returned?
    requires forall q :: q in s.heap && q != p ==> (s.lock == TheThread(q) <==> s'.lock == TheThread(q))
    ensures Inv(s')
  {
    forall q | q in s.heap
      ensures Compatible(s', p, q) && Compatible(s', q, p)
    {
      assert Compatible(s, p, q) && Compatible(s, q, p);
    }
    OthersKept(s, s', p);
    MainKept(s, s', p);
    ListenerKept(s, s', p);
  }

  /** cmd_terminate marks the node it has found. */
  lemma TermFoundStore(s: State, s': State, p: Ptr, id: int)
    requires Inv(s) && s.main == TermSearch(id) && p in s.list && p in s.heap && s.heap[p].id == id
    requires s' == MainUnlocks(s, TermJoin(p, id)).(heap := s.heap[p := Deactivated(s.heap[p])])
    ensures StoreOk(s') && OnlyNode(s, s', p)
  {
    assert NodeOk(s, p);
    forall q | q in s.heap
      ensures Compatible(s', p, q) && Compatible(s', q, p)
    {
      assert Compatible(s, p, q) && Compatible(s, q, p);
    }
    OthersKept(s, s', p);
  }

  lemma TermFoundInv(s: State, s': State, p: Ptr, id: int)
    requires Inv(s) && s.main == TermSearch(id) && p in s.list && p in s.heap && s.heap[p].id == id
    requires s' == MainUnlocks(s, TermJoin(p, id)).(heap := s.heap[p := Deactivated(s.heap[p])])
    ensures Inv(s')
  {
    TermFoundStore(s, s', p, id);
    assert NodeOk(s, p);
    if ListenerNew(s.listener) != Some(p) {
      ListenerKept(s, s', p);
    }
  }

  /** The first pass of cmd_exit marks every listed node. */
  lemma ExitMarkInv(s: State)
    requires Inv(s) && s.main.ExitMark?
    ensures Inv(ExitStep(s).value)
  {
    var s' := ExitStep(s).value;
    forall p | p in s'.heap
      ensures NodeOk(s', p)
    {
      assert NodeOk(s, p);
    }
    forall p, q | p in s'.heap && q in s'.heap
      ensures Compatible(s', p, q)
    {
      assert Compatible(s, p, q);
    }
  }

  /** The reaper looks at one node, or reaches the end of the list. */
  lemma ReapScanInv(s: State)
    requires Inv(s) && s.main.Reap?
    ensures Inv(ReapStep(s).value)
  {
    var s', i := ReapStep(s).value, s.main.i;
    if i < |s.list| {
      assert s.list[i] in s.list && NodeOk(s, s.list[i]);
      if !s.heap[s.list[i]].flagged {
        assert forall j :: 0 <= j <= i ==> Unflagged(s, j);
        assert forall j: nat :: Unflagged(s, j) ==> Unflagged(s', j);
      }
    }
    ControlInv(s, s');
  }

  lemma ReapStepInv(s: State)
    requires Inv(s) && InReap(s.main) && ReapStep(s).Some?
    ensures Inv(ReapStep(s).value)
  {
    if s.main.Reap? {
      ReapScanInv(s);
    } else if s.main.ReapJoin? {
      JoinInv(s, ReapStep(s).value, s.main.p);
    } else if s.main.ReapRemove? {
      DropInv(s, ReapStep(s).value, s.main.p);
    } else {
      ControlInv(s, ReapStep(s).value);
    }
  }

  /** After the duplicate check no active connection opened by main has that address. */
  lemma ConnCheckInv(s: State)
    requires Inv(s) && s.main.ConnCheck?
    ensures Inv(MainUnlocks(s, if Connected(s, s.main.a) then Idle else ConnOpen(s.main.a)))
  {
    var a := s.main.a;
    if Connected(s, a) {
      ControlInv(s, MainUnlocks(s, Idle));
    } else {
      var s' := MainUnlocks(s, ConnOpen(a));
      forall p | p in s'.heap
        ensures NodeOk(s', p)
      {
        assert NodeOk(s, p);
        if Opened(s.heap[p]) {
          assert p in s.list;
          var i :| 0 <= i < |s.list| && s.list[i] == p;
        }
      }
      forall p, q | p in s'.heap && q in s'.heap
        ensures Compatible(s', p, q)
      {
        assert Compatible(s, p, q);
      }
    }
  }

  /** The steps of cmd_connect that leave the list and the nodes alone. */
  lemma ConnControlInv(s: State, c: Choice)
    requires Inv(s) && ConnStep(s, c).Some?
    requires s.main.ConnLock? || s.main.ConnLinked? || s.main.ConnUnlinked? || (c.Fail? && (s.main.ConnOpen? || s.main.ConnSpawn?))
    ensures Inv(ConnStep(s, c).value)
  {
    ControlInv(s, ConnStep(s, c).value);
  }

  lemma ConnStepInv(s: State, c: Choice)
    requires Inv(s) && InConnect(s.main) && ConnStep(s, c).Some?
    ensures Inv(ConnStep(s, c).value)
  {
    if s.main.ConnCheck? {
      ConnCheckInv(s);
    } else if s.main.ConnOpen? && c.Got? {
      AllocInv(s, ConnStep(s, c).value, c.q, s.main.a, true);
    } else if s.main.ConnInsert? {
      PushInv(s, ConnStep(s, c).value, s.main.p);
    } else if s.main.ConnSpawn? && c.Go? {
      SpawnInv(s, ConnStep(s, c).value, s.main.p);
    } else if s.main.ConnUndo? {
      DropInv(s, ConnStep(s, c).value, s.main.p);
    } else {
      ConnControlInv(s, c);
    }
  }

  lemma TermSearchInv(s: State)
    requires Inv(s) && s.main.TermSearch?
    ensures Inv(TermStep(s).value)
  {
    var r := Find(s, s.main.id, 0);
    if r.Some? {
      TermFoundInv(s, TermStep(s).value, r.value, s.main.id);
    } else {
      ControlInv(s, TermStep(s).value);
    }
  }

  lemma TermJoinInv(s: State)
    requires Inv(s) && s.main.TermJoin? && TermStep(s).Some?
    ensures Inv(TermStep(s).value)
  {
    if TermStep(s).value.main.Undefined? {
      ControlInv(s, TermStep(s).value);
    } else {
      JoinInv(s, TermStep(s).value, s.main.p);
    }
  }

  lemma TermStepInv(s: State)
    requires Inv(s) && InTerminate(s.main) && TermStep(s).Some?
    ensures Inv(TermStep(s).value)
  {
    if s.main.TermSearch? {
      TermSearchInv(s);
    } else if s.main.TermJoin? {
      TermJoinInv(s);
    } else if s.main.TermRemove? {
      DropInv(s, TermStep(s).value, s.main.p);
    } else {
      ControlInv(s, TermStep(s).value);
    }
  }

  lemma ExitStepInv(s: State)
    requires Inv(s) && ExitStep(s).Some?
    ensures Inv(ExitStep(s).value)
  {
    var s' := ExitStep(s).value;
    if s.main.ExitMark? {
      ExitMarkInv(s);
    } else if s.main.ExitReap? && s.list != [] {
      assert s.list[0] in s.list && NodeOk(s, s.list[0]);
      ExitReapInv(s, s');
    } else {
      ControlInv(s, s');
    }
  }

  lemma ListenerControlInv(s: State, c: Choice)
    requires Inv(s) && ListenerStep(s, c).Some?
    requires s.listener.Loop? || s.listener.Linked? || s.listener.Unlinked? || (c.Fail? && (s.listener.Accept? || s.listener.Spawn?))
    ensures Inv(ListenerStep(s, c).value)
  {
    ControlInv(s, ListenerStep(s, c).value);
  }

  lemma ListenerStepInv(s: State, c: Choice)
    requires Inv(s) && ListenerStep(s, c).Some?
    ensures Inv(ListenerStep(s, c).value)
  {
    if s.listener.Accept? && c.Got? {
      AllocInv(s, ListenerStep(s, c).value, c.q, c.a, false);
    } else if s.listener.Insert? {
      PushInv(s, ListenerStep(s, c).value, s.listener.p);
    } else if s.listener.Spawn? && c.Go? {
      SpawnInv(s, ListenerStep(s, c).value, s.listener.p);
    } else if s.listener.Undo? {
      DropInv(s, ListenerStep(s, c).value, s.listener.p);
    } else {
      ListenerControlInv(s, c);
    }
  }

  lemma StepInv(s: State, l: Label)
    requires Inv(s) && Step(s, l).Some?
    ensures Inv(Step(s, l).value)
  {
    match l
    case Listen(c) => ListenerStepInv(s, c);
    case Peer(p) => PeerInv(s, p);
    case Main(c) =>
      if s.main.Idle? || s.main.Ready? {
        ControlInv(s, MainStep(s, c).value);
      } else if InReap(s.main) {
        ReapStepInv(s);
      } else if InConnect(s.main) {
        ConnStepInv(s, c);
      } else if InTerminate(s.main) {
        TermStepInv(s);
      } else {
        ExitStepInv(s);
      }
  }

  lemma {:induction false} RunInv(s: State, ls: seq<Label>)
    requires Inv(s) && Exec(Step, s, ls).Some?
    ensures Inv(Exec(Step, s, ls).value)
    decreases |ls|
  {
    if ls != [] {
      StepInv(s, ls[0]);
      RunInv(Step(s, ls[0]).value, ls[1..]);
    }
  }

  lemma ReachableInv(s: State)
    requires Reaches(Step, Start, s)
    ensures Inv(s)
  {
    StartInv();
    var ls: seq<Label> :| Exec(Step, Start, ls) == Some(s);
    RunInv(Start, ls);
  }
}
