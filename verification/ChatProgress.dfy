/**
  Nobody waits in vain: from every reachable state main can finish the command it is in, cmd_exit
  included as long as it has not entered its last loop.
*/
module ChatProgress {
  import opened Runs
  import opened Lists
  import opened Chat
  import opened ChatInv
  import opened ChatRuns
  import opened ChatCommands
  import opened ChatTerminate

  /** The join ahead of main, if any, is of a thread that exists. */
  ghost predicate Fine(s: State) { JoinsThread(s) && !EarlyFind(s) }

  /** One step of another thread. */
  lemma OtherStep(s: State, l: Label) returns (m: State)
    requires Inv(s) && !l.Main? && Step(s, l).Some?
    ensures Step(s, l) == Some(m) && Reaches(Step, s, m) && Inv(m)
    ensures m.main == s.main && m.running == s.running
    ensures s.main.TermJoin? && JoinsThread(s) ==> JoinsThread(m)
  {
    m := Step(s, l).value;
    StepInv(s, l);
    ReachesStep(Step, s, l, m);
    if s.main.TermJoin? && JoinsThread(s) {
      OthersLeaveJoin(s, l);
    }
  }

  /** Whoever else holds the lock gives it back with its next step. */
  lemma FreeLock(s: State) returns (m: State)
    requires Inv(s) && !s.lock.TheMain?
    ensures Reaches(Step, s, m) && Inv(m) && m.lock.NoOne?
    ensures m.main == s.main && m.running == s.running && m.list == s.list
    ensures s.main.TermJoin? && JoinsThread(s) ==> JoinsThread(m)
  {
    match s.lock
    case NoOne =>
      m := s;
      ReachesSelf(Step, s);
    case TheListener =>
      m := OtherStep(s, Listen(Go));
    case TheThread(p) =>
      assert NodeOk(s, p);
      m := OtherStep(s, Peer(p));
  }

  function StagesLeft(t: Thread): nat {
    match t
    case Receiving => 4
    case AtLock => 3
    case InSection => 2
    case PastSection => 1
    case _ => 0
  }

  /** With the lock free a receive thread can run to its end, its connection being closed. */
  lemma {:induction false} FinishThread(s: State, p: Ptr) returns (m: State)
    requires Inv(s) && (s.lock.NoOne? || s.lock == TheThread(p))
    requires p in s.heap && !s.heap[p].thread.NoThread? && !s.heap[p].thread.Joined?
    ensures Reaches(Step, s, m) && Inv(m) && m.lock.NoOne? && m == s.(heap := m.heap, lock := NoOne)
    ensures p in m.heap && m.heap[p].thread.Returned? && m.heap[p].id == s.heap[p].id
    ensures forall q :: q != p && q in s.heap ==> q in m.heap && m.heap[q] == s.heap[q]
    decreases StagesLeft(s.heap[p].thread)
  {
    assert NodeOk(s, p);
    if s.heap[p].thread.Returned? {
      m := s;
      ReachesSelf(Step, s);
    } else {
      var next := OtherStep(s, Peer(p));
      m := FinishThread(next, p);
      ReachesTrans(Step, s, next, m);
    }
  }

  function ListenerLeft(pc: ListenerPc): nat {
    match pc
    case Insert(_) => 4
    case Linked(_) => 3
    case Undo(_) => 2
    case Spawn(_) => 2
    case Unlinked => 1
    case _ => 0
  }

  /** The listener can finish the connection it has in hand. */
  lemma {:induction false} SettleListener(s: State) returns (m: State)
    requires Inv(s) && (s.lock.NoOne? || s.lock.TheListener?)
    ensures Reaches(Step, s, m) && Inv(m) && m.lock.NoOne? && m.main == s.main && m.running == s.running
    ensures m.listener.Loop? || m.listener.Accept? || m.listener.Ended?
    decreases ListenerLeft(s.listener)
  {
    if s.listener.Loop? || s.listener.Accept? || s.listener.Ended? {
      m := s;
      ReachesSelf(Step, s);
    } else {
      var next := OtherStep(s, Listen(Go));
      m := SettleListener(next);
      ReachesTrans(Step, s, next, m);
    }
  }

  /** ... and end, once cmd_exit has been called: the accept on the closed socket fails. */
  lemma EndListener(s: State) returns (m: State)
    requires Inv(s) && s.lock.NoOne? && !s.running
    ensures Reaches(Step, s, m) && Inv(m) && m.lock.NoOne? && m.main == s.main && m.listener.Ended?
  {
    m := SettleListener(s);
    if m.listener.Accept? {
      var next := OtherStep(m, Listen(Fail));
      ReachesTrans(Step, s, m, next);
      m := next;
    }
    if m.listener.Loop? {
      var next := OtherStep(m, Listen(Go));
      ReachesTrans(Step, s, m, next);
      m := next;
    }
  }

  // ----- reap, connect and terminate

  predicate InCommand(pc: MainPc) { pc.Idle? || pc.Ready? || InReap(pc) || InConnect(pc) || InTerminate(pc) }

  /** How far main is from the prompt; within the reaper the list and the position decide. */
  function Phase(pc: MainPc): nat {
    match pc
    case TermLock(_) => 5
    case TermSearch(_) => 4
    case TermJoin(_, _) => 3
    case TermRelock(_) => 2
    case ConnInsert(_) => 4
    case ConnLinked(_) => 3
    case ConnLock(_) => 3
    case ConnCheck(_) => 2
    case ConnSpawn(_) => 2
    case ConnUndo(_) => 2
    case Idle => 0
    case Exited => 0
    case _ => if InReap(pc) then 2 else 1
  }

  function ReapLeft(s: State): int {
    match s.main
    case ReapLock => |s.list| + 5
    case Reap(i) => |s.list| - i + 4
    case ReapJoin(_) => 3
    case ReapRelock(_) => 2
    case ReapRemove(_) => 1
    case _ => 0
  }

  ghost predicate Closer(s: State, m: State) {
    || Phase(m.main) < Phase(s.main)
    || (Phase(m.main) == Phase(s.main) && |m.list| < |s.list|)
    || (Phase(m.main) == Phase(s.main) && |m.list| == |s.list| && 0 <= ReapLeft(m) < ReapLeft(s))
  }

  lemma MainTakes(s: State, c: Choice) returns (m: State)
    requires Inv(s) && MainStep(s, c).Some?
    ensures MainStep(s, c) == Some(m) && Reaches(Step, s, m) && Inv(m)
  {
    m := MainStep(s, c).value;
    StepInv(s, Main(c));
    ReachesStep(Step, s, Main(c), m);
  }

  lemma ReapMove(s: State) returns (m: State)
    requires Inv(s) && InReap(s.main) && (s.lock.NoOne? || s.lock.TheMain?)
    ensures Reaches(Step, s, m) && Inv(m) && Closer(s, m) && (InReap(m.main) || m.main.Ready?)
  {
    var r := s;
    ReachesSelf(Step, s);
    if s.main.ReapJoin? {
      assert NodeOk(s, s.main.p);
      r := FinishThread(s, s.main.p);
    }
    m := MainTakes(r, Go);
    ReachesTrans(Step, s, r, m);
    if s.main.ReapRemove? {
      RemoveMembers(s.list, s.main.p);
    }
  }

  lemma ConnMove(s: State) returns (m: State)
    requires Inv(s) && InConnect(s.main) && (s.lock.NoOne? || s.lock.TheMain?)
    ensures Reaches(Step, s, m) && Inv(m) && Closer(s, m) && (InConnect(m.main) || m.main.Idle?)
  {
    m := MainTakes(s, if s.main.ConnOpen? then Fail else Go);
  }

  lemma NoNewNode(s: State)
    requires Inv(s) && MainNew(s.main).None? && (s.listener.Loop? || s.listener.Accept? || s.listener.Ended?)
    ensures forall p :: p in s.heap ==> !s.heap[p].thread.NoThread?
  {
    forall p | p in s.heap
      ensures !s.heap[p].thread.NoThread?
    {
      assert NodeOk(s, p);
    }
  }

  lemma TermMove(s: State) returns (m: State)
    requires Inv(s) && InTerminate(s.main) && Fine(s) && (s.lock.NoOne? || s.lock.TheMain?)
    ensures Reaches(Step, s, m) && Inv(m) && Closer(s, m) && Fine(m) && (InTerminate(m.main) || m.main.Idle?)
  {
    var r := TermReady(s);
    TermCloser(r);
    m := MainTakes(r, Go);
    ReachesTrans(Step, s, r, m);
  }

  /** The others first: the listener before the search, the thread before the join. */
  lemma TermReady(s: State) returns (r: State)
    requires Inv(s) && InTerminate(s.main) && Fine(s) && (s.lock.NoOne? || s.lock.TheMain?)
    ensures Reaches(Step, s, r) && Inv(r) && r.main == s.main && Fine(r) && (r.lock.NoOne? || r.lock.TheMain?)
    ensures s.main.TermLock? ==> forall p :: p in r.heap ==> !r.heap[p].thread.NoThread?
    ensures s.main.TermJoin? ==> r.heap[s.main.p].thread.Returned?
  {
    r := s;
    ReachesSelf(Step, s);
    if s.main.TermLock? {
      r := SettleListener(s);
      NoNewNode(r);
    } else if s.main.TermJoin? {
      assert NodeOk(s, s.main.p);
      r := FinishThread(s, s.main.p);
    }
  }

  lemma TermCloser(r: State)
    requires Inv(r) && InTerminate(r.main) && Fine(r) && (r.lock.NoOne? || r.lock.TheMain?)
    requires r.main.TermLock? ==> forall p :: p in r.heap ==> !r.heap[p].thread.NoThread?
    requires r.main.TermJoin? ==> r.heap[r.main.p].thread.Returned?
    ensures TermStep(r).Some? && Fine(TermStep(r).value)
    ensures var pc := TermStep(r).value.main; Phase(pc) < Phase(r.main) && (InTerminate(pc) || pc.Idle?)
  {
    if r.main.TermSearch? {
      SearchDecides(r);
    }
  }

  /** Main takes its next step, after the others have let it. */
  lemma CommandMove(s: State) returns (m: State)
    requires Inv(s) && InCommand(s.main) && Fine(s) && !s.main.Idle?
    ensures Reaches(Step, s, m) && Inv(m) && Closer(s, m) && Fine(m) && InCommand(m.main)
  {
    var r := s;
    ReachesSelf(Step, s);
    if !s.lock.TheMain? {
      r := FreeLock(s);
    }
    if s.main.Ready? {
      m := MainTakes(r, Go);
    } else if InReap(s.main) {
      m := ReapMove(r);
    } else if InConnect(s.main) {
      m := ConnMove(r);
    } else {
      m := TermMove(r);
    }
    ReachesTrans(Step, s, r, m);
  }

  /** The command comes back to the prompt. */
  lemma {:induction false} CommandReturns(s: State) returns (m: State)
    requires Inv(s) && InCommand(s.main) && Fine(s)
    ensures Reaches(Step, s, m) && m.main.Idle?
    decreases Phase(s.main), |s.list|, ReapLeft(s)
  {
    if s.main.Idle? {
      m := s;
      ReachesSelf(Step, s);
    } else {
      var next := CommandMove(s);
      m := CommandReturns(next);
      ReachesTrans(Step, s, next, m);
    }
  }

  // ----- exit

  /** All listed threads from position i on can end before main takes the lock. */
  lemma {:induction false} FinishAll(s: State, i: nat) returns (m: State)
    requires Inv(s) && s.lock.NoOne? && s.main.ExitRelock? && i <= |s.list|
    requires forall j :: 0 <= j < i ==> s.list[j] in s.heap && s.heap[s.list[j]].thread.Returned?
    ensures Reaches(Step, s, m) && Inv(m) && m.lock.NoOne? && m.main.ExitRelock?
    ensures forall p :: p in m.list ==> m.heap[p].thread.Returned?
    decreases |s.list| - i
  {
    if i == |s.list| {
      m := s;
      ReachesSelf(Step, s);
    } else {
      var p := s.list[i];
      assert p in s.list && NodeOk(s, p);
      var next := FinishThread(s, p);
      m := FinishAll(next, i + 1);
      ReachesTrans(Step, s, next, m);
    }
  }

  /** From its second lock on: everybody else first, then the last loop. */
  lemma RelockReturns(s: State) returns (m: State)
    requires Inv(s) && s.main.ExitRelock?
    ensures Reaches(Step, s, m) && m.main.Exited? && m.list == [] && m.heap == map[]
  {
    var r := FreeLock(s);
    var t := FinishAll(r, 0);
    ReachesTrans(Step, s, r, t);
    var u := MainTakes(t, Go);
    ReachesTrans(Step, s, t, u);
    m := ExitCompletes(u);
    ReachesTrans(Step, s, u, m);
  }

  lemma {:induction false} ExitReturns(s: State) returns (m: State)
    requires Inv(s) && (s.main.ExitLock? || s.main.ExitMark? || s.main.ExitJoinListener? || s.main.ExitRelock?)
    ensures Reaches(Step, s, m) && m.main.Exited? && m.list == [] && m.heap == map[]
    decreases if s.main.ExitLock? then 3 else if s.main.ExitMark? then 2 else if s.main.ExitJoinListener? then 1 else 0
  {
    if s.main.ExitRelock? {
      m := RelockReturns(s);
    } else {
      var r := s;
      ReachesSelf(Step, s);
      if !s.lock.TheMain? {
        r := FreeLock(s);
      }
      if s.main.ExitJoinListener? {
        var ended := EndListener(r);
        ReachesTrans(Step, s, r, ended);
        r := ended;
      }
      var next := MainTakes(r, Go);
      ReachesTrans(Step, s, r, next);
      m := ExitReturns(next);
      ReachesTrans(Step, s, next, m);
    }
  }

  predicate InExit(pc: MainPc) { pc.ExitLock? || pc.ExitMark? || PastMark(pc) }

  /**
    From every reachable state there is a continuation in which main comes back to the prompt, or, in
    cmd_exit, ends with everything joined and freed. The exceptions are the last loop of cmd_exit
    and a cmd_terminate that finds, or has found, a node without a thread.
  */
  lemma MainCanFinish(s: State)
    requires Reaches(Step, Start, s) && !s.main.ExitReap? && !s.main.Undefined? && !EarlyFind(s)
    requires s.main.TermJoin? ==>
      s.main.p in s.heap && s.heap[s.main.p].id == s.main.id && !s.heap[s.main.p].thread.NoThread?
    ensures exists e ::
      Reaches(Step, s, e) && (if InExit(s.main) then e.main.Exited? && e.list == [] && e.heap == map[] else e.main.Idle?)
  {
    ReachableInv(s);
    if s.main.Exited? {
      ReachesSelf(Step, s);
      AllListed(s);
      assert s.heap == map[];
    } else if InExit(s.main) {
      var e := ExitReturns(s);
    } else {
      var e := CommandReturns(s);
    }
  }
}
