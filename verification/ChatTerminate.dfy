/**
  cmd_terminate while the listener and the receive threads go on, the one way the program leaves
  defined behaviour, and runs that show what can go wrong.
*/
module ChatTerminate {
  import opened Runs
  import opened Lists
  import opened Chat
  import opened ChatInv
  import opened ChatRuns
  import opened ChatCommands

  predicate Terminating(pc: MainPc, p: Ptr) {
    (pc.TermJoin? && pc.p == p) || pc == TermRelock(p) || pc == TermRemove(p)
  }

  /** Main is in this cmd_terminate throughout the schedule. */
  ghost predicate StaysTerminating(s: State, ls: seq<Label>, p: Ptr)
    decreases |ls|
  {
    && Terminating(s.main, p)
    && (ls != [] ==> Step(s, ls[0]).Some? && StaysTerminating(Step(s, ls[0]).value, ls[1..], p))
  }

  /**
    The list while main waits: new nodes in front of what is kept of the old list, in which only the
    node q, which the listener had in hand, may still lack a thread. p is kept, with its thread.
  */
  ghost predicate Tracked(s: State, added: seq<Ptr>, kept: seq<Ptr>, p: Ptr, id: int, q: Option<Ptr>) {
    && s.list == added + kept
    && p in kept && p in s.heap && s.heap[p].id == id && !s.heap[p].thread.NoThread?
    && forall x :: x in kept ==> x in s.heap && (s.heap[x].thread.NoThread? ==> q == Some(x))
  }

  lemma DropTracked(s: State, s': State, x: Ptr, added: seq<Ptr>, kept: seq<Ptr>, p: Ptr, id: int, q: Option<Ptr>)
    returns (added': seq<Ptr>, kept': seq<Ptr>)
    requires Inv(s) && Tracked(s, added, kept, p, id, q) && x in s.heap && s.heap[x].thread.NoThread? && x in s.list
    requires s'.list == Remove(s.list, x) && s'.heap == s.heap - {x}
    ensures Tracked(s', added', kept', p, id, q)
    ensures kept' == kept || (q.Some? && q.value in kept && kept' == Remove(kept, q.value))
  {
    RemoveConcat(added, kept, x);
    RemoveMembers(s.list, x);
    if x in added {
      added', kept' := Remove(added, x), kept;
      forall y | y in kept
        ensures y != x
      {
        DistinctHalves(added, kept, y);
      }
    } else {
      added', kept' := added, Remove(kept, x);
      assert x in kept && x != p;
      DistinctTail(added, kept);
      RemoveMembers(kept, x);
    }
  }

  lemma ListenTracked(s: State, c: Choice, added: seq<Ptr>, kept: seq<Ptr>, p: Ptr, id: int, q: Option<Ptr>)
    returns (added': seq<Ptr>, kept': seq<Ptr>)
    requires Inv(s) && Tracked(s, added, kept, p, id, q) && ListenerStep(s, c).Some?
    ensures Tracked(ListenerStep(s, c).value, added', kept', p, id, q)
    ensures kept' == kept || (q.Some? && q.value in kept && kept' == Remove(kept, q.value))
  {
    var s' := ListenerStep(s, c).value;
    added', kept' := added, kept;
    if s.listener.Undo? {
      added', kept' := DropTracked(s, s', s.listener.p, added, kept, p, id, q);
    } else if s.listener.Insert? {
      added' := [s.listener.p] + added;
      assert s'.list == added' + kept;
    }
  }

  lemma MainTracked(s: State, c: Choice, added: seq<Ptr>, kept: seq<Ptr>, p: Ptr, id: int, q: Option<Ptr>)
    requires Inv(s) && Tracked(s, added, kept, p, id, q) && TermStep(s).Some?
    requires Terminating(s.main, p) && Terminating(TermStep(s).value.main, p)
    ensures Tracked(TermStep(s).value, added, kept, p, id, q)
  {
  }

  lemma PeerTracked(s: State, x: Ptr, added: seq<Ptr>, kept: seq<Ptr>, p: Ptr, id: int, q: Option<Ptr>)
    requires Inv(s) && Tracked(s, added, kept, p, id, q) && PeerStep(s, x).Some?
    ensures Tracked(PeerStep(s, x).value, added, kept, p, id, q)
  {
    PeerChangesOnly(s, x);
    assert NodeOk(PeerStep(s, x).value, x);
  }

  lemma StepTracked(s: State, l: Label, added: seq<Ptr>, kept: seq<Ptr>, p: Ptr, id: int, q: Option<Ptr>)
    returns (added': seq<Ptr>, kept': seq<Ptr>)
    requires Inv(s) && Tracked(s, added, kept, p, id, q)
    requires Step(s, l).Some? && Terminating(s.main, p) && Terminating(Step(s, l).value.main, p)
    ensures Tracked(Step(s, l).value, added', kept', p, id, q)
    ensures kept' == kept || (q.Some? && q.value in kept && kept' == Remove(kept, q.value))
  {
    added', kept' := added, kept;
    match l
    case Listen(c) => added', kept' := ListenTracked(s, c, added, kept, p, id, q);
    case Peer(x) => PeerTracked(s, x, added, kept, p, id, q);
    case Main(c) => MainTracked(s, c, added, kept, p, id, q);
  }

  /** Distinct from q on, the kept part is the old list with q taken out at most once. */
  lemma {:induction false} RunTracked(s: State, ls: seq<Label>, added: seq<Ptr>, kept: seq<Ptr>, old_: seq<Ptr>,
                                      p: Ptr, id: int, q: Option<Ptr>)
    returns (added': seq<Ptr>, kept': seq<Ptr>)
    requires Inv(s) && Tracked(s, added, kept, p, id, q) && StaysTerminating(s, ls, p)
    requires Distinct(old_) && (kept == old_ || (q.Some? && kept == Remove(old_, q.value)))
    ensures Exec(Step, s, ls).Some? && Inv(Exec(Step, s, ls).value)
    ensures Tracked(Exec(Step, s, ls).value, added', kept', p, id, q)
    ensures kept' == old_ || (q.Some? && kept' == Remove(old_, q.value))
    decreases |ls|
  {
    if ls == [] {
      added', kept' := added, kept;
    } else {
      StepInv(s, ls[0]);
      added', kept' := StepTracked(s, ls[0], added, kept, p, id, q);
      if q.Some? {
        RemoveMembers(old_, q.value);
      }
      added', kept' := RunTracked(Step(s, ls[0]).value, ls[1..], added', kept', old_, p, id, q);
    }
  }

  /** What is left of the old list: without p, and without the listener's node if that was rolled back. */
  predicate LeftOver(kept: seq<Ptr>, list: seq<Ptr>, p: Ptr, q: Option<Ptr>) {
    kept == Remove(list, p) || (q.Some? && kept == Remove(Remove(list, q.value), p))
  }

  lemma TrackStart(s: State, p: Ptr, id: int)
    requires Inv(s) && s.main == TermJoin(p, id) && p in s.heap && s.heap[p].id == id && !s.heap[p].thread.NoThread?
    ensures Tracked(s, [], s.list, p, id, ListenerNew(s.listener))
  {
    forall x | x in s.list
      ensures x in s.heap && (s.heap[x].thread.NoThread? ==> ListenerNew(s.listener) == Some(x))
    {
      assert NodeOk(s, x);
    }
    assert [] + s.list == s.list;
  }

  /** The last step: the rescan takes p out of the kept part. */
  lemma TrackEnd(e: State, added: seq<Ptr>, kept: seq<Ptr>, p: Ptr, id: int, q: Option<Ptr>)
    requires Inv(e) && e.main == TermRemove(p) && Tracked(e, added, kept, p, id, q)
    ensures e.heap[p].thread.Joined? && Step(e, Main(Go)).Some?
    ensures var s' := Step(e, Main(Go)).value;
      && s'.main.Idle? && s'.lock.NoOne? && s'.list == added + Remove(kept, p)
      && id in s'.joined && id in s'.freed && p !in s'.heap
  {
    assert NodeOk(e, p);
    RemoveConcat(added, kept, p);
    DistinctHalves(added, kept, p);
  }

  /**
    cmd_terminate on a node whose thread exists, with everything else running on: when it unlocks, the
    node has been joined and freed, all other old nodes are there in their order with new ones only in
    front, except that a node the listener had in hand may have been rolled back.
  */
  lemma TerminateRemovesExactly(s: State, ls: seq<Label>, p: Ptr, id: int) returns (added: seq<Ptr>, kept: seq<Ptr>)
    requires Reaches(Step, Start, s) && s.main == TermJoin(p, id)
    requires p in s.heap && s.heap[p].id == id && !s.heap[p].thread.NoThread?
    requires StaysTerminating(s, ls, p)
    requires Exec(Step, s, ls).Some? && Exec(Step, s, ls).value.main == TermRemove(p)
    ensures var e := Exec(Step, s, ls).value;
      && p in e.heap && e.heap[p].id == id && e.heap[p].thread.Joined? && Step(e, Main(Go)).Some?
      && var s' := Step(e, Main(Go)).value;
      && s'.main.Idle? && s'.lock.NoOne?
      && s'.list == added + kept && LeftOver(kept, s.list, p, ListenerNew(s.listener))
      && id in s'.joined && id in s'.freed && p !in s'.heap
  {
    ReachableInv(s);
    var q := ListenerNew(s.listener);
    TrackStart(s, p, id);
    added, kept := RunTracked(s, ls, [], s.list, s.list, p, id, q);
    TrackEnd(Exec(Step, s, ls).value, added, kept, p, id, q);
    kept := Remove(kept, p);
  }

  /** On a node whose thread exists the join of cmd_terminate is defined, whatever happens meanwhile. */
  lemma TerminateIsDefined(s: State, ls: seq<Label>, p: Ptr, id: int, c: Choice)
    requires Reaches(Step, Start, s) && s.main == TermJoin(p, id)
    requires p in s.heap && s.heap[p].id == id && !s.heap[p].thread.NoThread?
    requires StaysTerminating(s, ls, p)
    ensures Exec(Step, s, ls).Some? && Step(Exec(Step, s, ls).value, Main(c)) != Some(Exec(Step, s, ls).value.(main := Undefined))
  {
    ReachableInv(s);
    TrackStart(s, p, id);
    var added, kept := RunTracked(s, ls, [], s.list, s.list, p, id, ListenerNew(s.listener));
    SameTermId(s, ls, p, id);
    StaysAtEnd(s, ls, p);
    JoinIsDefined(Exec(Step, s, ls).value, p, id, c);
  }

  lemma JoinIsDefined(e: State, p: Ptr, id: int, c: Choice)
    requires Terminating(e.main, p) && (e.main.TermJoin? ==> e.main.id == id)
    requires p in e.heap && e.heap[p].id == id && !e.heap[p].thread.NoThread?
    ensures Step(e, Main(c)) != Some(e.(main := Undefined))
  {
    assert Step(e, Main(c)) == TermStep(e);
  }

  lemma {:induction false} StaysAtEnd(s: State, ls: seq<Label>, p: Ptr)
    requires StaysTerminating(s, ls, p)
    ensures Exec(Step, s, ls).Some? && Terminating(Exec(Step, s, ls).value.main, p)
    decreases |ls|
  {
    if ls != [] {
      StaysAtEnd(Step(s, ls[0]).value, ls[1..], p);
    }
  }

  lemma {:induction false} SameTermId(s: State, ls: seq<Label>, p: Ptr, id: int)
    requires StaysTerminating(s, ls, p) && (s.main.TermJoin? ==> s.main.id == id)
    ensures Exec(Step, s, ls).Some? && (Exec(Step, s, ls).value.main.TermJoin? ==> Exec(Step, s, ls).value.main.id == id)
    decreases |ls|
  {
    if ls != [] {
      SameTermId(Step(s, ls[0]).value, ls[1..], p, id);
    }
  }

  /** In the last loop of cmd_exit every thread handle has been set. */
  lemma ExitIsDefined(s: State)
    requires Inv(s) && s.main.ExitReap? && ExitStep(s).Some?
    ensures !ExitStep(s).value.main.Undefined?
  {
    if s.list != [] {
      assert s.list[0] in s.list && NodeOk(s, s.list[0]);
    }
  }

  /** So has that of a node whose should_remove is set. */
  lemma ReapIsDefined(s: State)
    requires Inv(s) && ReapStep(s).Some? && !s.main.Undefined?
    ensures !ReapStep(s).value.main.Undefined?
  {
  }

  // ----- exactly when the join of cmd_terminate is undefined

  /** The search of cmd_terminate is about to find a node whose thread handle has not been set. */
  ghost predicate EarlyFind(s: State) {
    && s.main.TermSearch?
    && exists p :: ListedAs(s, p, s.main.id) && s.heap[p].thread.NoThread?
  }

  /** That node is one the listener has published and has no thread for, yet or at all. */
  lemma EarlyFindIsPublished(s: State)
    requires Reaches(Step, Start, s) && s.main.TermSearch?
    ensures (exists p :: ListedAs(s, p, s.main.id) && s.heap[p].thread.NoThread?)
       <==> (exists p :: ListedAs(s, p, s.main.id) && (s.listener == Spawn(p) || s.listener == Undo(p)))
  {
    ReachableInv(s);
    forall p | ListedAs(s, p, s.main.id)
      ensures s.heap[p].thread.NoThread? <==> s.listener == Spawn(p) || s.listener == Undo(p)
    {
      assert NodeOk(s, p);
    }
  }

  /** Main is past the search, and the node it has found has a thread and is still there. */
  predicate JoinsThread(s: State) {
    s.main.TermJoin? ==>
      s.main.p in s.heap && s.heap[s.main.p].id == s.main.id && !s.heap[s.main.p].thread.NoThread?
  }

  lemma SearchDecides(s: State)
    requires s.main.TermSearch? && !EarlyFind(s)
    ensures TermStep(s).Some? && JoinsThread(TermStep(s).value) && !TermStep(s).value.main.Undefined?
  {
    FindWalks(s, s.main.id, 0);
  }

  /** With the join ahead, the listener and the receive threads leave the node to main. */
  lemma OthersLeaveJoin(s: State, l: Label)
    requires Inv(s) && s.main.TermJoin? && JoinsThread(s) && !l.Main? && Step(s, l).Some?
    ensures Step(s, l).value.main == s.main && JoinsThread(Step(s, l).value)
  {
    if l.Peer? {
      PeerChangesOnly(s, l.p);
      assert NodeOk(Step(s, l).value, l.p);
    }
  }

  lemma ConnectDefined(s: State, c: Choice)
    requires InConnect(s.main) && ConnStep(s, c).Some?
    ensures !ConnStep(s, c).value.main.TermJoin? && !ConnStep(s, c).value.main.Undefined?
  {
  }

  lemma MainDefined(s: State, c: Choice)
    requires Inv(s) && JoinsThread(s) && !EarlyFind(s) && MainStep(s, c).Some? && !s.main.Undefined?
    ensures JoinsThread(MainStep(s, c).value) && !MainStep(s, c).value.main.Undefined?
  {
    if InReap(s.main) {
      ReapIsDefined(s);
    } else if InConnect(s.main) {
      ConnectDefined(s, c);
    } else if s.main.TermSearch? {
      SearchDecides(s);
    } else if s.main.ExitReap? {
      ExitIsDefined(s);
    }
  }

  /** No step leads to undefined behaviour but the search that finds a node without a thread. */
  lemma StepDefined(s: State, l: Label)
    requires Inv(s) && JoinsThread(s) && !EarlyFind(s) && Step(s, l).Some? && !s.main.Undefined?
    ensures JoinsThread(Step(s, l).value) && !Step(s, l).value.main.Undefined?
  {
    if l.Main? {
      MainDefined(s, l.c);
    } else if s.main.TermJoin? {
      OthersLeaveJoin(s, l);
    }
  }

  /** Some state on the run, its ends included, is one in which cmd_terminate finds a node too early. */
  ghost predicate FindsEarly(s: State, ls: seq<Label>)
    decreases |ls|
  {
    || EarlyFind(s)
    || (ls != [] && Step(s, ls[0]).Some? && FindsEarly(Step(s, ls[0]).value, ls[1..]))
  }

  lemma {:induction false} DefinedUnlessEarly(s: State, ls: seq<Label>)
    requires Inv(s) && JoinsThread(s) && !s.main.Undefined? && Exec(Step, s, ls).Some? && !FindsEarly(s, ls)
    ensures !Exec(Step, s, ls).value.main.Undefined?
    decreases |ls|
  {
    if ls != [] {
      StepInv(s, ls[0]);
      StepDefined(s, ls[0]);
      DefinedUnlessEarly(Step(s, ls[0]).value, ls[1..]);
    }
  }

  /**
    Undefined behaviour has one cause only. On every run that ends in it, some earlier search of
    cmd_terminate found a node that had no thread at that moment; the reaper and cmd_exit never join an
    unset thread handle.
  */
  lemma OnlyEarlyTerminateIsUndefined(ls: seq<Label>)
    requires Exec(Step, Start, ls).Some? && Exec(Step, Start, ls).value.main.Undefined?
    ensures FindsEarly(Start, ls)
  {
    StartInv();
    if !FindsEarly(Start, ls) {
      DefinedUnlessEarly(Start, ls);
    }
  }

  /** Main does not leave this cmd_terminate before the last step of the schedule. */
  ghost predicate InsideTerminate(s: State, ls: seq<Label>)
    decreases |ls|
  {
    ls != [] ==> InTerminate(s.main) && Step(s, ls[0]).Some? && InsideTerminate(Step(s, ls[0]).value, ls[1..])
  }

  /** Some continuation of this cmd_terminate joins a thread handle that is unset or freed. */
  ghost predicate CanGoWrong(s: State) {
    exists ls: seq<Label> ::
      InsideTerminate(s, ls) && Exec(Step, s, ls).Some? && Exec(Step, s, ls).value.main.Undefined?
  }

  /** While main searches it holds the lock: the others cannot change what it will find, but for the better. */
  lemma SearchIsStable(s: State, l: Label)
    requires Inv(s) && s.main.TermSearch? && !EarlyFind(s) && !l.Main? && Step(s, l).Some?
    ensures Step(s, l).value.main == s.main && !EarlyFind(Step(s, l).value)
  {
    var s' := Step(s, l).value;
    SearchAlone(s, l);
    forall p | ListedAs(s', p, s.main.id)
      ensures !s'.heap[p].thread.NoThread?
    {
      StepPersists(s, l, p);
      assert ListedAs(s, p, s.main.id);
    }
  }

  lemma SearchAlone(s: State, l: Label)
    requires Inv(s) && s.lock.TheMain? && !l.Main? && Step(s, l).Some?
    ensures var s' := Step(s, l).value;
      && s'.main == s.main && s'.list == s.list
      && forall x :: x in s.list ==> x in s'.heap && (s'.heap[x].thread.NoThread? ==> s.heap[x].thread.NoThread?)
  {
  }

  lemma {:induction false} GoesRight(s: State, ls: seq<Label>)
    requires Inv(s) && JoinsThread(s) && !EarlyFind(s) && !s.main.TermLock? && !s.main.Undefined?
    requires InsideTerminate(s, ls) && Exec(Step, s, ls).Some?
    ensures !Exec(Step, s, ls).value.main.Undefined?
    decreases |ls|
  {
    if ls != [] {
      var l, m := ls[0], Step(s, ls[0]).value;
      StepInv(s, l);
      StepDefined(s, l);
      if s.main.TermSearch? && !l.Main? {
        SearchIsStable(s, l);
      }
      GoesRight(m, ls[1..]);
    }
  }

  /** The search finds the node, and main goes straight on to the join. */
  lemma GoesWrong(s: State)
    requires Inv(s) && EarlyFind(s)
    ensures CanGoWrong(s)
  {
    var p :| ListedAs(s, p, s.main.id) && s.heap[p].thread.NoThread?;
    FindsTheNode(s, s.main.id, p);
    var m := Step(s, Main(Go)).value;
    var u := Step(m, Main(Go)).value;
    assert InsideTerminate(u, []) && Exec(Step, u, []) == Some(u);
    assert InsideTerminate(m, [Main(Go)]) && Exec(Step, m, [Main(Go)]) == Some(u);
    var ls := [Main(Go), Main(Go)];
    assert ls[1..] == [Main(Go)];
    assert InsideTerminate(s, ls) && Exec(Step, s, ls) == Some(u);
  }

  /**
    cmd_terminate(id) can join an unset or freed handle if and only if, when it searches the list, the
    listed node with that id has no thread.
  */
  lemma UndefinedIffFoundEarly(s: State)
    requires Reaches(Step, Start, s) && s.main.TermSearch?
    ensures CanGoWrong(s) <==> exists p :: ListedAs(s, p, s.main.id) && s.heap[p].thread.NoThread?
  {
    ReachableInv(s);
    if EarlyFind(s) {
      GoesWrong(s);
    } else {
      forall ls: seq<Label> | InsideTerminate(s, ls) && Exec(Step, s, ls).Some?
        ensures !Exec(Step, s, ls).value.main.Undefined?
      {
        GoesRight(s, ls);
      }
    }
  }

  // ----- a whole cmd_terminate, from the command to the prompt

  /** Connection `id` is listed at p with a thread that main has not joined. */
  ghost predicate Alive(s: State, p: Ptr, id: int) {
    ListedAs(s, p, id) && !s.heap[p].thread.NoThread?
  }

  /** cmd_terminate(id) has still to remove the node p, which is in the list. */
  ghost predicate WillRemove(s: State, p: Ptr, id: int) {
    && Alive(s, p, id)
    && (s.main == TermLock(id) || s.main == TermSearch(id) || s.main == TermJoin(p, id)
        || s.main == TermRelock(p) || s.main == TermRemove(p))
  }

  /** Only main takes a connection that has a thread off the list. */
  lemma OthersKeepAlive(s: State, l: Label, y: Ptr, id: int)
    requires Inv(s) && Step(s, l).Some? && !l.Main? && Alive(s, y, id)
    ensures Alive(Step(s, l).value, y, id) && Step(s, l).value.main == s.main
  {
    if l.Peer? {
      PeerChangesOnly(s, l.p);
      assert NodeOk(Step(s, l).value, l.p);
    } else {
      ListenerKeepsAlive(s, l.c, y, id);
    }
  }

  lemma ListenerKeepsAlive(s: State, c: Choice, y: Ptr, id: int)
    requires Inv(s) && ListenerStep(s, c).Some? && Alive(s, y, id)
    ensures Alive(ListenerStep(s, c).value, y, id) && ListenerStep(s, c).value.main == s.main
  {
    if s.listener.Undo? {
      RemoveMembers(s.list, s.listener.p);
    }
  }

  lemma TerminateMoves(s: State, p: Ptr, id: int)
    requires Inv(s) && WillRemove(s, p, id) && TermStep(s).Some?
    ensures var s' := TermStep(s).value;
      WillRemove(s', p, id) || (s'.main.Idle? && id in s'.freed && id in s'.joined && p !in s'.list)
  {
    if s.main.TermSearch? {
      FindsTheNode(s, id, p);
    } else if s.main.TermRemove? {
      RemoveMembers(s.list, p);
      assert NodeOk(s, p);
    }
  }

  /** ... and of those main takes no other one. */
  lemma TerminateSpares(s: State, p: Ptr, id: int, y: Ptr, other: int)
    requires Inv(s) && WillRemove(s, p, id) && TermStep(s).Some? && Alive(s, y, other) && other != id
    ensures Alive(TermStep(s).value, y, other)
  {
    if s.main.TermSearch? {
      FindsTheNode(s, id, p);
    } else if s.main.TermRemove? {
      RemoveMembers(s.list, p);
    }
  }

  lemma {:induction false} RunTerminate(s: State, ls: seq<Label>, p: Ptr, id: int)
    requires Inv(s) && WillRemove(s, p, id) && InsideTerminate(s, ls)
    requires Exec(Step, s, ls).Some? && Exec(Step, s, ls).value.main.Idle?
    ensures var e := Exec(Step, s, ls).value;
      && id in e.freed && id in e.joined
      && forall y, other :: Alive(s, y, other) && other != id ==> Alive(e, y, other)
    decreases |ls|
  {
    var l, m := ls[0], Step(s, ls[0]).value;
    StepInv(s, l);
    forall y, other | Alive(s, y, other) && other != id
      ensures Alive(m, y, other)
    {
      if l.Main? {
        TerminateSpares(s, p, id, y, other);
      } else {
        OthersKeepAlive(s, l, y, other);
      }
    }
    if l.Main? {
      TerminateMoves(s, p, id);
    } else {
      OthersKeepAlive(s, l, p, id);
    }
    if m.main.Idle? {
      assert ls[1..] == [];
    } else {
      RunTerminate(m, ls[1..], p, id);
    }
  }

  /**
    The whole command: when cmd_terminate(id) is given for a listed connection that has a thread, then
    by the time it returns that connection has been joined and freed, and every other connection that
    was listed with a thread is still there, whatever the other threads did meanwhile.
  */
  lemma TerminateEndsOne(s: State, ls: seq<Label>, p: Ptr, id: int)
    requires Reaches(Step, Start, s) && s.main.Ready? && ListedAs(s, p, id) && !s.heap[p].thread.NoThread?
    requires Step(s, Main(DoTerminate(id))).Some? && InsideTerminate(Step(s, Main(DoTerminate(id))).value, ls)
    requires Exec(Step, Step(s, Main(DoTerminate(id))).value, ls).Some?
    requires Exec(Step, Step(s, Main(DoTerminate(id))).value, ls).value.main.Idle?
    ensures var e := Exec(Step, Step(s, Main(DoTerminate(id))).value, ls).value;
      && id in e.joined && id in e.freed
      && forall y :: y in s.list && y in s.heap && s.heap[y].id != id && !s.heap[y].thread.NoThread? ==>
           ListedAs(e, y, s.heap[y].id)
  {
    ReachableInv(s);
    var m := Step(s, Main(DoTerminate(id))).value;
    StepInv(s, Main(DoTerminate(id)));
    RunTerminate(m, ls, p, id);
    var e := Exec(Step, m, ls).value;
    forall y | y in s.list && y in s.heap && s.heap[y].id != id && !s.heap[y].thread.NoThread?
      ensures ListedAs(e, y, s.heap[y].id)
    {
      assert Alive(m, y, s.heap[y].id);
      assert Alive(e, y, s.heap[y].id);
    }
  }

  // ----- runs that show the limits

  lemma Then(s0: State, s: State, l: Label, s': State)
    requires Reaches(Step, s0, s) && Step(s, l) == Some(s')
    ensures Reaches(Step, s0, s')
  {
    ReachesStep(Step, s, l, s');
    ReachesTrans(Step, s0, s, s');
  }

  /** Main reads a line and reaps: nothing to do when no listed node is flagged. */
  lemma ReadLineAndReap(s: State)
    requires s.main.Idle? && s.lock.NoOne? && forall j: nat :: j < |s.list| ==> Unflagged(s, j)
    ensures Reaches(Step, s, s.(main := Ready))
  {
    ReachesSelf(Step, s);
    var s1 := s.(main := ReapLock);
    Then(s, s, Main(ReadLine), s1);
    var s2 := s1.(lock := TheMain, main := Reap(0));
    Then(s, s1, Main(Go), s2);
    forall j: nat | j < |s2.list|
      ensures Unflagged(s2, j)
    {
      assert Unflagged(s, j);
    }
    ReapNothing(s2);
    ReachesTrans(Step, s, s2, s2.(lock := NoOne, main := Ready));
  }

  lemma {:induction false} ReapNothing(s: State)
    requires s.main.Reap? && s.main.i <= |s.list| && forall j: nat :: j < |s.list| ==> Unflagged(s, j)
    ensures Reaches(Step, s, s.(lock := NoOne, main := Ready))
    decreases if s.main.Reap? then |s.list| - s.main.i else 0
  {
    var i := s.main.i;
    if i == |s.list| {
      ReachesStep(Step, s, Main(Go), s.(lock := NoOne, main := Ready));
    } else {
      assert Unflagged(s, i);
      var m := s.(main := Reap(i + 1));
      ReachesStep(Step, s, Main(Go), m);
      forall j: nat | j < |m.list|
        ensures Unflagged(m, j)
      {
        assert Unflagged(s, j);
      }
      ReapNothing(m);
      ReachesTrans(Step, s, m, s.(lock := NoOne, main := Ready));
    }
  }

  /** Main is at the command after a first line of input. */
  lemma FirstLine() returns (s: State)
    ensures Reaches(Step, Start, s) && s == Start.(main := Ready)
  {
    ReadLineAndReap(Start);
    s := Start.(main := Ready);
  }

  /** The listener has accepted a connection from a, linked its node 0 and released the lock; main is at a command. */
  lemma Published(a: Addr) returns (s: State)
    ensures Reaches(Step, Start, s)
    ensures s == State(map[0 := Node(1, a, false, true, false, NoThread)], [0], NoOne, 2, true, Ready, Spawn(0), [], [])
  {
    var s0 := FirstLine();
    var s1 := Step(s0, Listen(Go)).value;
    Then(Start, s0, Listen(Go), s1);
    var s2 := Step(s1, Listen(Got(0, a))).value;
    Then(Start, s1, Listen(Got(0, a)), s2);
    var s3 := Step(s2, Listen(Go)).value;
    Then(Start, s2, Listen(Go), s3);
    s := Step(s3, Listen(Go)).value;
    Then(Start, s3, Listen(Go), s);
    assert s.list == [0];
  }

  /** Main has found that node and waits for its thread. */
  lemma EarlyJoin(a: Addr) returns (s: State)
    ensures Reaches(Step, Start, s)
    ensures s == State(map[0 := Node(1, a, false, false, false, NoThread)], [0], NoOne, 2, true, TermJoin(0, 1), Spawn(0), [], [])
  {
    var s0 := Published(a);
    var s1 := s0.(main := TermLock(1));
    Then(Start, s0, Main(DoTerminate(1)), s1);
    var s2 := s1.(lock := TheMain, main := TermSearch(1));
    Then(Start, s1, Main(Go), s2);
    s := s2.(lock := NoOne, main := TermJoin(0, 1), heap := s2.heap[0 := Deactivated(s2.heap[0])]);
    assert Find(s2, 1, 0) == Some(0);
    Then(Start, s2, Main(Go), s);
  }

  /** The window is real: terminating a node that has just been published is undefined. */
  lemma EarlyTerminate()
    ensures exists s: State :: Reaches(Step, Start, s) && s.main.Undefined?
  {
    var s := EarlyJoin(Addr(1, 1));
    var s1 := s.(main := Undefined);
    assert Join(s, 0, TermRelock(0)) == Some(s1);
    Then(Start, s, Main(Go), s1);
  }

  /** The connection's thread has been created. */
  lemma Accepted(a: Addr) returns (s: State)
    ensures Reaches(Step, Start, s)
    ensures s == State(map[0 := Node(1, a, false, true, false, Receiving)], [0], NoOne, 2, true, Ready, Loop, [], [])
  {
    var s0 := Published(a);
    s := s0.(listener := Loop, heap := map[0 := Node(1, a, false, true, false, Receiving)]);
    assert SetThread(s0, 0, Receiving).heap == s.heap;
    Then(Start, s0, Listen(Go), s);
  }

  /** cmd_exit is about to mark it. */
  lemma Marking(a: Addr) returns (s: State)
    ensures Reaches(Step, Start, s)
    ensures s == State(map[0 := Node(1, a, false, true, false, Receiving)], [0], TheMain, 2, false, ExitMark, Loop, [], [])
  {
    var s1 := Accepted(a);
    var s2 := s1.(main := ExitLock, running := false);
    Then(Start, s1, Main(DoExit), s2);
    s := s2.(main := ExitMark, lock := TheMain);
    Then(Start, s2, Main(Go), s);
  }

  /** cmd_exit up to the join of the listener, with one connection whose thread is still receiving. */
  lemma ExitUnderWay(a: Addr) returns (s: State)
    ensures Reaches(Step, Start, s)
    ensures s == State(map[0 := Node(1, a, false, false, false, Receiving)], [0], NoOne, 2, false, ExitJoinListener, Loop, [], [])
  {
    var s3 := Marking(a);
    s := s3.(main := ExitJoinListener, lock := NoOne, heap := map[0 := Node(1, a, false, false, false, Receiving)]);
    assert DeactivateListed(s3).heap == s.heap;
    Then(Start, s3, Main(Go), s);
  }

  /** Main has taken the lock at line 345; the connection's thread is still receiving. */
  lemma ExitLocked(a: Addr) returns (s: State)
    ensures Reaches(Step, Start, s) && s.main.ExitReap? && s.list == [0]
    ensures 0 in s.heap && s.heap[0].thread.Receiving?
  {
    var s0 := ExitUnderWay(a);
    var s1 := s0.(listener := Ended);
    Then(Start, s0, Listen(Go), s1);
    var s2 := s1.(main := ExitRelock);
    Then(Start, s1, Main(Go), s2);
    s := s2.(lock := TheMain, main := ExitReap);
    Then(Start, s2, Main(Go), s);
  }

  /** cmd_exit can hang: a receive thread that is still in its loop when main locks at line 345. */
  lemma ExitCanHang()
    ensures exists s: State :: Reaches(Step, Start, s) && s.main.ExitReap? && !CanExit(s)
  {
    var s := ExitLocked(Addr(1, 1));
    assert s.list[0] == 0 && 0 in s.list && !PastLock(s.heap[0]);
    ExitIffThreadsPastLock(s);
  }

  function ListedIds(s: State): seq<int> {
    seq(|s.list|, i requires 0 <= i < |s.list| => if s.list[i] in s.heap then s.heap[s.list[i]].id else 0)
  }

  /** cmd_connect has taken id 1 for node 0 and not yet the lock. */
  lemma Connecting(a: Addr) returns (s: State)
    ensures Reaches(Step, Start, s)
    ensures s == State(map[0 := Node(1, a, true, true, false, NoThread)], [], NoOne, 2, true, ConnInsert(0), Loop, [], [])
  {
    var s0 := FirstLine();
    var s1 := Step(s0, Main(DoConnect(a))).value;
    Then(Start, s0, Main(DoConnect(a)), s1);
    var s2 := Step(s1, Main(Go)).value;
    Then(Start, s1, Main(Go), s2);
    var s3 := Step(s2, Main(Go)).value;
    Then(Start, s2, Main(Go), s3);
    s := Step(s3, Main(Got(0, a))).value;
    Then(Start, s3, Main(Got(0, a)), s);
  }

  /** Ids are taken before the lock, so the list is sorted by id neither way. */
  lemma ListIsNotSorted(a: Addr)
    ensures exists s: State :: Reaches(Step, Start, s) && ListedIds(s) == [3, 1, 2]
  {
    var s := Connecting(a);
    var s1 := AcceptOne(s, 1, a);
    ReachesTrans(Step, Start, s, s1);
    var s2 := s1.(list := [0] + s1.list, lock := TheMain, main := ConnLinked(0));
    Then(Start, s1, Main(Go), s2);
    var s3 := s2.(lock := NoOne, main := ConnSpawn(0));
    Then(Start, s2, Main(Go), s3);
    var s4 := AcceptOne(s3, 2, a);
    ReachesTrans(Step, Start, s3, s4);
    assert s4.list == [2, 0, 1];
    assert ListedIds(s4) == [3, 1, 2];
  }

  /** The listener accepts a connection and starts its thread, at address q. */
  lemma AcceptOne(s: State, q: Ptr, a: Addr) returns (s': State)
    requires s.listener.Loop? && s.running && s.lock.NoOne? && q !in s.heap
    ensures Reaches(Step, s, s')
    ensures s' == s.(heap := s.heap[q := Node(s.nextId, a, false, true, false, Receiving)], list := [q] + s.list,
                     nextId := s.nextId + 1)
  {
    ReachesSelf(Step, s);
    var s1 := Step(s, Listen(Go)).value;
    Then(s, s, Listen(Go), s1);
    var s2 := Step(s1, Listen(Got(q, a))).value;
    Then(s, s1, Listen(Got(q, a)), s2);
    var s3 := Step(s2, Listen(Go)).value;
    Then(s, s2, Listen(Go), s3);
    var s4 := Step(s3, Listen(Go)).value;
    Then(s, s3, Listen(Go), s4);
    s' := Step(s4, Listen(Go)).value;
    Then(s, s4, Listen(Go), s');
  }
}
