/**
  What single steps of the chat program compute, said over the list itself: the duplicate check of
  cmd_connect, the search of cmd_terminate, who may change a node, and what a failed
  pthread_create leaves behind.
*/
module ChatCommands {
  import opened Runs
  import opened Lists
  import opened Chat
  import opened ChatInv
  import opened ChatRuns

  // ----- the duplicate check

  /**
    cmd_connect(a) is refused if and only if some listed connection is active and has the ip and the
    port of a; otherwise it goes on to connect to a. The check changes nothing but the lock.
  */
  lemma RefusedIffDuplicate(s: State, c: Choice)
    requires Reaches(Step, Start, s) && s.main.ConnCheck?
    ensures Step(s, Main(c)).Some?
    ensures var s', a := Step(s, Main(c)).value, s.main.a;
      var duplicate := exists p :: p in s.list && p in s.heap && s.heap[p].active
                                   && s.heap[p].addr.ip == a.ip && s.heap[p].addr.port == a.port;
      && s'.main == (if duplicate then Idle else ConnOpen(a))
      && s' == s.(lock := NoOne, main := s'.main)
  {
    ReachableInv(s);
    var a := s.main.a;
    if Connected(s, a) {
      var i :| 0 <= i < |s.list| && s.list[i] in s.heap && s.heap[s.list[i]].active && s.heap[s.list[i]].addr == a;
      assert s.list[i] in s.list;
    }
    forall p | p in s.list && p in s.heap && s.heap[p].active && s.heap[p].addr.ip == a.ip && s.heap[p].addr.port == a.port
      ensures Connected(s, a)
    {
      var i :| 0 <= i < |s.list| && s.list[i] == p;
      assert s.heap[s.list[i]].addr == a;
    }
  }

  // ----- the search

  predicate ListedAs(s: State, p: Ptr, id: int) {
    p in s.list && p in s.heap && s.heap[p].id == id
  }

  lemma {:induction false} FindWalks(s: State, id: int, i: nat)
    requires i <= |s.list|
    ensures Find(s, id, i).None? ==> forall j :: i <= j < |s.list| ==> !ListedAs(s, s.list[j], id)
    ensures Find(s, id, i).Some? ==> ListedAs(s, Find(s, id, i).value, id)
    decreases |s.list| - i
  {
    if i < |s.list| {
      FindWalks(s, id, i + 1);
    }
  }

  /** Ids being unique, the walk finds the listed node with that id, wherever it is in the list. */
  lemma FindsTheNode(s: State, id: int, p: Ptr)
    requires Inv(s)
    ensures Find(s, id, 0) == Some(p) <==> ListedAs(s, p, id)
  {
    FindWalks(s, id, 0);
    if ListedAs(s, p, id) {
      var j :| 0 <= j < |s.list| && s.list[j] == p;
      assert Find(s, id, 0).Some?;
      assert Compatible(s, p, Find(s, id, 0).value);
    }
  }

  /**
    cmd_terminate(id) goes on with the listed node that has the id, which it marks inactive and nothing
    else; and it reports that there is none if and only if no listed node has it.
  */
  lemma SearchFindsListed(s: State, c: Choice)
    requires Reaches(Step, Start, s) && s.main.TermSearch?
    ensures Step(s, Main(c)).Some?
    ensures var s', id := Step(s, Main(c)).value, s.main.id;
      && (forall p :: s'.main == TermJoin(p, id) <==> ListedAs(s, p, id))
      && (s'.main == Idle <==> forall p :: !ListedAs(s, p, id))
      && (s'.main == Idle || exists p :: s'.main == TermJoin(p, id))
      && s' == s.(lock := NoOne, main := s'.main, heap := s'.heap)
      && s'.heap.Keys == s.heap.Keys
      && (forall p :: p in s.heap ==>
            s'.heap[p] == if ListedAs(s, p, id) then s.heap[p].(active := false) else s.heap[p])
  {
    ReachableInv(s);
    var s', id := Step(s, Main(c)).value, s.main.id;
    forall p: Ptr
      ensures s'.main == TermJoin(p, id) <==> ListedAs(s, p, id)
      ensures Find(s, id, 0) == Some(p) <==> ListedAs(s, p, id)
    {
      FindsTheNode(s, id, p);
    }
    var r := Find(s, id, 0);
    if r.Some? {
      assert ListedAs(s, r.value, id);
      assert s'.main == TermJoin(r.value, id);
    }
  }

  // ----- the listener

  ghost predicate EndedOnExit(s: State) { s.listener.Ended? ==> !s.running }

  lemma {:induction false} RunEnded(s: State, ls: seq<Label>)
    requires Exec(Step, s, ls).Some? && EndedOnExit(s)
    ensures EndedOnExit(Exec(Step, s, ls).value) && (!s.running ==> !Exec(Step, s, ls).value.running)
    decreases |ls|
  {
    if ls != [] {
      EndedStep(s, ls[0]);
      RunEnded(Step(s, ls[0]).value, ls[1..]);
    }
  }

  lemma JoinFrame(s: State, p: Ptr, next: MainPc)
    requires Join(s, p, next).Some?
    ensures Join(s, p, next).value.running == s.running && Join(s, p, next).value.listener == s.listener
  {
  }

  lemma ConnRunning(s: State, c: Choice)
    requires ConnStep(s, c).Some?
    ensures ConnStep(s, c).value.listener == s.listener && ConnStep(s, c).value.running == s.running
  {
  }

  lemma MainRunning(s: State, c: Choice)
    requires MainStep(s, c).Some?
    ensures MainStep(s, c).value.listener == s.listener && (!s.running ==> !MainStep(s, c).value.running)
  {
    if InConnect(s.main) {
      ConnRunning(s, c);
    } else if s.main.ReapJoin? {
      JoinFrame(s, s.main.p, ReapRelock(s.main.p));
    } else if s.main.TermJoin? && Join(s, s.main.p, TermRelock(s.main.p)).Some? {
      JoinFrame(s, s.main.p, TermRelock(s.main.p));
    } else if s.main.ExitReap? && s.list != [] {
      JoinFrame(s, s.list[0], ExitReap);
    }
  }

  lemma EndedStep(s: State, l: Label)
    requires Step(s, l).Some? && EndedOnExit(s)
    ensures EndedOnExit(Step(s, l).value) && (!s.running ==> !Step(s, l).value.running)
  {
    if l.Main? {
      MainRunning(s, l.c);
    }
  }

  /** Failed calls never end the listener: it has ended only when cmd_exit has been called. */
  lemma ListenerEndsOnExit(s: State)
    requires Reaches(Step, Start, s) && s.listener.Ended?
    ensures !s.running
  {
    var ls: seq<Label> :| Exec(Step, Start, ls) == Some(s);
    RunEnded(Start, ls);
  }

  // ----- who changes a node

  /** The steps that may clear `active` of node p. */
  predicate Deactivates(s: State, l: Label, p: Ptr) {
    || (l == Peer(p) && p in s.heap && s.heap[p].thread.AtLock?)
    || (l.Main? && s.main.TermSearch? && ListedAs(s, p, s.main.id))
    || (l.Main? && s.main.ExitMark? && p in s.list)
  }

  /** The life of a receive thread, and by whose step it moves on. */
  predicate ThreadMoves(s: State, l: Label, p: Ptr, t: Thread, t': Thread) {
    || (l == Main(Go) && s.main == ConnSpawn(p) && t.NoThread? && t'.Receiving?)
    || (l == Listen(Go) && s.listener == Spawn(p) && t.NoThread? && t'.Receiving?)
    || (l == Peer(p) && t.Receiving? && t'.AtLock?)
    || (l == Peer(p) && t.AtLock? && t'.InSection? && s.lock.NoOne?)
    || (l == Peer(p) && t.InSection? && t'.PastSection? && s.lock == TheThread(p))
    || (l == Peer(p) && t.PastSection? && t'.Returned?)
    || (l.Main? && s.main == ReapJoin(p) && t.Returned? && t'.Joined?)
    || (l.Main? && s.main.TermJoin? && s.main.p == p && t.Returned? && t'.Joined?)
  }

  /** All that a step may do to a node that stays allocated. */
  predicate NodeChange(s: State, s': State, l: Label, p: Ptr)
    requires p in s.heap && p in s'.heap
  {
    var n, n' := s.heap[p], s'.heap[p];
    && n'.id == n.id && n'.addr == n.addr && n'.byMain == n.byMain
    && n'.active == (n.active && !Deactivates(s, l, p))
    && n'.flagged == (n.flagged || (l == Peer(p) && n.thread.AtLock?))
    && (n'.thread == n.thread || ThreadMoves(s, l, p, n.thread, n'.thread))
  }

  lemma PeerNodeChange(s: State, q: Ptr, p: Ptr)
    requires Inv(s) && PeerStep(s, q).Some? && p in s.heap
    ensures p in PeerStep(s, q).value.heap && NodeChange(s, PeerStep(s, q).value, Peer(q), p)
  {
    assert NodeOk(s, q);
  }

  lemma ListenerNodeChange(s: State, c: Choice, p: Ptr)
    requires Inv(s) && ListenerStep(s, c).Some? && p in s.heap && p in ListenerStep(s, c).value.heap
    ensures NodeChange(s, ListenerStep(s, c).value, Listen(c), p)
  {
  }

  lemma JoinNodeChange(s: State, q: Ptr, next: MainPc, c: Choice, p: Ptr)
    requires Join(s, q, next).Some? && p in s.heap
    requires s.main == ReapJoin(q) || (s.main.TermJoin? && s.main.p == q)
    ensures p in Join(s, q, next).value.heap && NodeChange(s, Join(s, q, next).value, Main(c), p)
  {
    var s' := Join(s, q, next).value;
    assert !Deactivates(s, Main(c), p);
    if p == q && s.heap[q].thread.Returned? {
      assert ThreadMoves(s, Main(c), p, Returned, Joined);
    } else {
      assert s'.heap[p] == s.heap[p];
    }
  }

  lemma ConnNodeChange(s: State, c: Choice, p: Ptr)
    requires Inv(s) && InConnect(s.main) && ConnStep(s, c).Some? && p in s.heap && p in ConnStep(s, c).value.heap
    ensures NodeChange(s, ConnStep(s, c).value, Main(c), p)
  {
  }

  lemma ReapNodeChange(s: State, c: Choice, p: Ptr)
    requires Inv(s) && InReap(s.main) && ReapStep(s).Some? && p in s.heap && p in ReapStep(s).value.heap
    ensures NodeChange(s, ReapStep(s).value, Main(c), p)
  {
    if s.main.ReapJoin? {
      JoinNodeChange(s, s.main.p, ReapRelock(s.main.p), c, p);
    }
  }

  lemma TermNodeChange(s: State, c: Choice, p: Ptr)
    requires Inv(s) && InTerminate(s.main) && TermStep(s).Some? && p in s.heap && p in TermStep(s).value.heap
    ensures NodeChange(s, TermStep(s).value, Main(c), p)
  {
    if s.main.TermSearch? {
      FindsTheNode(s, s.main.id, p);
      FindWalks(s, s.main.id, 0);
    } else if s.main.TermJoin? && Join(s, s.main.p, TermRelock(s.main.p)).Some? {
      JoinNodeChange(s, s.main.p, TermRelock(s.main.p), c, p);
    }
  }

  lemma ExitNodeChange(s: State, c: Choice, p: Ptr)
    requires Inv(s) && ExitStep(s).Some? && p in s.heap && p in ExitStep(s).value.heap
    ensures NodeChange(s, ExitStep(s).value, Main(c), p)
  {
    if s.main.ExitReap? && s.list != [] {
      assert s.list[0] in s.list && NodeOk(s, s.list[0]);
    }
  }

  lemma MainNodeChange(s: State, c: Choice, p: Ptr)
    requires Inv(s) && MainStep(s, c).Some? && p in s.heap && p in MainStep(s, c).value.heap
    ensures NodeChange(s, MainStep(s, c).value, Main(c), p)
  {
    if s.main.Idle? || s.main.Ready? {
    } else if InReap(s.main) {
      ReapNodeChange(s, c, p);
    } else if InConnect(s.main) {
      ConnNodeChange(s, c, p);
    } else if InTerminate(s.main) {
      TermNodeChange(s, c, p);
    } else {
      ExitNodeChange(s, c, p);
    }
  }

  /**
    Who changes what: id and address of a connection never change; `active` is cleared by exactly three
    steps and never set; should_remove is set by the connection's own thread in its final section and
    never cleared; and the thread moves through its life one stage at a time, each by its own step, the
    creator's pthread_create or main's join.
  */
  lemma OnlyTheseChange(s: State, l: Label, p: Ptr)
    requires Reaches(Step, Start, s) && Step(s, l).Some? && p in s.heap && p in Step(s, l).value.heap
    ensures NodeChange(s, Step(s, l).value, l, p)
  {
    ReachableInv(s);
    match l
    case Main(c) => MainNodeChange(s, c, p);
    case Listen(c) => ListenerNodeChange(s, c, p);
    case Peer(q) => PeerNodeChange(s, q, p);
  }

  // ----- a failed pthread_create is undone

  /** The list and the nodes as they were, one id used up and logged as freed. */
  function IdSpent(s: State): State {
    s.(nextId := s.nextId + 1, freed := s.freed + [s.nextId])
  }

  lemma PushThenDrop(s: State, q: Ptr, a: Addr, byMain: bool)
    requires Inv(s) && q !in s.heap
    ensures var m := Push(Alloc(s, q, a, byMain), q); q in m.heap && Drop(m, q) == IdSpent(s)
  {
    var m := Push(Alloc(s, q, a, byMain), q);
    assert m.list[1..] == s.list;
    assert Drop(m, q).heap == s.heap;
  }

  lemma ThreeSteps(s: State, s1: State, s2: State, s3: State, ls: seq<Label>)
    requires |ls| == 3 && Step(s, ls[0]) == Some(s1) && Step(s1, ls[1]) == Some(s2) && Step(s2, ls[2]) == Some(s3)
    ensures Exec(Step, s, ls) == Some(s3)
  {
    assert ls[1..][1..] == ls[2..] && ls[2..][1..] == [];
    assert Exec(Step, s3, []) == Some(s3);
    assert Exec(Step, s2, ls[2..]) == Some(s3);
    assert Exec(Step, s1, ls[1..]) == Some(s3);
  }

  lemma ConnectTakes(s: State, c: Choice)
    requires InConnect(s.main)
    ensures Step(s, Main(c)) == ConnStep(s, c)
  {
  }

  /** A new node is linked in front, by the listener or by cmd_connect. */
  lemma ListenerPublishes(s: State, q: Ptr, a: Addr)
    requires s.listener.Accept? && s.lock.NoOne? && q !in s.heap
    ensures Exec(Step, s, [Listen(Got(q, a)), Listen(Go), Listen(Go)])
         == Some(Push(Alloc(s, q, a, false), q).(listener := Spawn(q)))
  {
    var s1 := Alloc(s, q, a, false).(listener := Insert(q));
    var s2 := Push(s1, q).(lock := TheListener, listener := Linked(q));
    ThreeSteps(s, s1, s2, s2.(lock := NoOne, listener := Spawn(q)), [Listen(Got(q, a)), Listen(Go), Listen(Go)]);
  }

  lemma ConnectPublishes(s: State, q: Ptr)
    requires s.main.ConnOpen? && s.lock.NoOne? && q !in s.heap
    ensures Exec(Step, s, [Main(Got(q, s.main.a)), Main(Go), Main(Go)])
         == Some(Push(Alloc(s, q, s.main.a, true), q).(main := ConnSpawn(q)))
  {
    var s1 := Alloc(s, q, s.main.a, true).(main := ConnInsert(q));
    var s2 := Push(s1, q).(lock := TheMain, main := ConnLinked(q));
    ConnectTakes(s, Got(q, s.main.a));
    ConnectTakes(s1, Go);
    ConnectTakes(s2, Go);
    ThreeSteps(s, s1, s2, s2.(lock := NoOne, main := ConnSpawn(q)), [Main(Got(q, s.main.a)), Main(Go), Main(Go)]);
  }

  lemma ListenerRollsBack(s: State, q: Ptr)
    requires s.listener == Spawn(q) && s.lock.NoOne? && q in s.heap
    ensures Exec(Step, s, [Listen(Fail), Listen(Go), Listen(Go)]) == Some(Drop(s, q).(listener := Loop))
  {
    var s1 := s.(listener := Undo(q));
    var s2 := Drop(s1, q).(lock := TheListener, listener := Unlinked);
    ThreeSteps(s, s1, s2, s2.(lock := NoOne, listener := Loop), [Listen(Fail), Listen(Go), Listen(Go)]);
  }

  lemma ConnectRollsBack(s: State, q: Ptr)
    requires s.main == ConnSpawn(q) && s.lock.NoOne? && q in s.heap
    ensures Exec(Step, s, [Main(Fail), Main(Go), Main(Go)]) == Some(Drop(s, q).(main := Idle))
  {
    var s1 := s.(main := ConnUndo(q));
    var s2 := Drop(s1, q).(lock := TheMain, main := ConnUnlinked);
    ConnectTakes(s, Fail);
    ConnectTakes(s1, Go);
    ConnectTakes(s2, Go);
    assert ConnStep(s, Fail) == Some(s1);
    assert ConnStep(s1, Go) == Some(s2);
    ThreeSteps(s, s1, s2, s2.(lock := NoOne, main := Idle), [Main(Fail), Main(Go), Main(Go)]);
  }

  /** The listener: with nobody in between, accept, link, fail, unlink and free leave no trace but the id. */
  lemma ListenerUndoes(s: State, q: Ptr, a: Addr)
    requires Inv(s) && s.listener.Accept? && s.lock.NoOne? && q !in s.heap
    ensures Exec(Step, s, [Listen(Got(q, a)), Listen(Go), Listen(Go)] + [Listen(Fail), Listen(Go), Listen(Go)])
         == Some(IdSpent(s).(listener := Loop))
  {
    PushThenDrop(s, q, a, false);
    ListenerPublishes(s, q, a);
    ListenerRollsBack(Push(Alloc(s, q, a, false), q).(listener := Spawn(q)), q);
    ExecConcat(Step, s, [Listen(Got(q, a)), Listen(Go), Listen(Go)], [Listen(Fail), Listen(Go), Listen(Go)]);
  }

  /** cmd_connect: the same. */
  lemma ConnectUndoes(s: State, q: Ptr)
    requires Inv(s) && s.main.ConnOpen? && s.lock.NoOne? && q !in s.heap
    ensures Exec(Step, s, [Main(Got(q, s.main.a)), Main(Go), Main(Go)] + [Main(Fail), Main(Go), Main(Go)])
         == Some(IdSpent(s).(main := Idle))
  {
    PushThenDrop(s, q, s.main.a, true);
    ConnectPublishes(s, q);
    ConnectRollsBack(Push(Alloc(s, q, s.main.a, true), q).(main := ConnSpawn(q)), q);
    ExecConcat(Step, s, [Main(Got(q, s.main.a)), Main(Go), Main(Go)], [Main(Fail), Main(Go), Main(Go)]);
  }
}
