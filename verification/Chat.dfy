/**
  The peer list of the chat program under all its threads: main (which runs the commands and the
  reaper), the listener, and one receive thread per connection. One lock guards the list; a step of a
  thread is what it does between two points where another thread can be noticed.
*/
module Chat {
  import opened Runs
  import opened Lists

  /** An address that malloc may return; a freed one may be returned again. */
  type Ptr = nat

  datatype Addr = Addr(ip: nat, port: nat)

  /**
    conn_recv_thread of a node: not created; in its recv loop; past it and waiting for the lock;
    inside its final critical section; past that section; returned; joined.
  */
  datatype Thread = NoThread | Receiving | AtLock | InSection | PastSection | Returned | Joined

  /** `byMain`: opened by cmd_connect, not accepted by the listener. `flagged` is should_remove. */
  datatype Node = Node(id: int, addr: Addr, byMain: bool, active: bool, flagged: bool, thread: Thread)

  datatype Who = NoOne | TheMain | TheListener | TheThread(p: Ptr)

  datatype MainPc =
    // at the prompt; a line has been read and the list reaped, and the command is due
    | Idle | Ready
    // reap_connections: position i of the traversal, then unlock, join, lock, rescan
    | ReapLock | Reap(i: nat) | ReapJoin(p: Ptr) | ReapRelock(p: Ptr) | ReapRemove(p: Ptr)
    // cmd_connect: duplicate check, connect, add_connection, pthread_create, rollback
    | ConnLock(a: Addr) | ConnCheck(a: Addr) | ConnOpen(a: Addr) | ConnInsert(p: Ptr) | ConnLinked(p: Ptr)
    | ConnSpawn(p: Ptr) | ConnUndo(p: Ptr) | ConnUnlinked
    // cmd_terminate
    | TermLock(id: int) | TermSearch(id: int) | TermJoin(p: Ptr, id: int) | TermRelock(p: Ptr) | TermRemove(p: Ptr)
    // cmd_exit
    | ExitLock | ExitMark | ExitJoinListener | ExitRelock | ExitReap | Exited
    // pthread_join on a handle that pthread_create never set
    | Undefined

  datatype ListenerPc =
    | Loop | Accept | Insert(p: Ptr) | Linked(p: Ptr) | Spawn(p: Ptr) | Undo(p: Ptr) | Unlinked | Ended

  datatype State = State(
    heap: map<Ptr, Node>,
    list: seq<Ptr>,
    lock: Who,
    nextId: int,
    running: bool,
    main: MainPc,
    listener: ListenerPc,
    joined: seq<int>,
    freed: seq<int>)

  /** What the environment decides: the command, the outcome of a call, the address malloc returns. */
  datatype Choice =
    | Go | Fail | Got(q: Ptr, a: Addr)
    | ReadLine | DoList | DoConnect(to: Addr) | DoTerminate(id: int) | DoExit

  datatype Label = Main(c: Choice) | Listen(c: Choice) | Peer(p: Ptr)

  const Start := State(map[], [], NoOne, 1, true, Idle, Loop, [], [])

  // ----- operations on the list, each inside one critical section

  function Alloc(s: State, q: Ptr, a: Addr, byMain: bool): State {
    s.(heap := s.heap[q := Node(s.nextId, a, byMain, true, false, NoThread)], nextId := s.nextId + 1)
  }

  function Push(s: State, p: Ptr): State {
    s.(list := [p] + s.list)
  }

  function SetThread(s: State, p: Ptr, t: Thread): State
    requires p in s.heap
  {
    s.(heap := s.heap[p := s.heap[p].(thread := t)])
  }

  /** Unlink p wherever it is in the list, and free it. */
  function Drop(s: State, p: Ptr): State
    requires p in s.heap
  {
    s.(list := Remove(s.list, p), heap := s.heap - {p}, freed := s.freed + [s.heap[p].id])
  }

  /** The rescan of the reaper and of cmd_terminate: drop the node if it is still there. */
  function DropIfListed(s: State, p: Ptr): State {
    if p in s.list && p in s.heap then Drop(s, p) else s
  }

  /** pthread_join(p->thread): waits for the thread to return, and is undefined if there never was one. */
  function Join(s: State, p: Ptr, next: MainPc): Option<State> {
    if p !in s.heap || s.heap[p].thread.NoThread? then Some(s.(main := Undefined))
    else if s.heap[p].thread.Returned? then
      Some(SetThread(s, p, Joined).(main := next, joined := s.joined + [s.heap[p].id]))
    else None
  }

  predicate Connected(s: State, a: Addr) {
    exists i :: 0 <= i < |s.list| && s.list[i] in s.heap && s.heap[s.list[i]].active && s.heap[s.list[i]].addr == a
  }

  /** find_connection_by_id: the first listed node with that id. */
  function Find(s: State, id: int, i: nat): (r: Option<Ptr>)
    requires i <= |s.list|
    ensures r.Some? ==> r.value in s.list && r.value in s.heap && s.heap[r.value].id == id
    decreases |s.list| - i
  {
    if i == |s.list| then None
    else if s.list[i] in s.heap && s.heap[s.list[i]].id == id then Some(s.list[i])
    else Find(s, id, i + 1)
  }

  function Deactivated(n: Node): Node { n.(active := false) }

  function DeactivateListed(s: State): State {
    s.(heap := map p | p in s.heap :: if p in s.list then Deactivated(s.heap[p]) else s.heap[p])
  }

  function MainLocks(s: State, pc: MainPc): Option<State> {
    if s.lock.NoOne? then Some(s.(lock := TheMain, main := pc)) else None
  }

  function MainUnlocks(s: State, pc: MainPc): State {
    s.(lock := NoOne, main := pc)
  }

  // ----- the steps

  /** main: the command loop reads a line and reaps. */
  function Prompt(s: State, c: Choice): Option<State> {
    if c.ReadLine? then Some(s.(main := ReapLock)) else None
  }

  /** Then it runs the command; `Go` is any that leaves the list alone. cmd_list ends by reaping once more. */
  function Command(s: State, c: Choice): Option<State> {
    match c
    case Go => Some(s.(main := Idle))
    case DoList => Some(s.(main := ReapLock))
    case DoConnect(a) => Some(s.(main := ConnLock(a)))
    case DoTerminate(id) => Some(s.(main := TermLock(id)))
    case DoExit => Some(s.(main := ExitLock, running := false))
    case _ => None
  }

  /** reap_connections. */
  function ReapStep(s: State): Option<State> {
    match s.main
    case ReapLock => MainLocks(s, Reap(0))
    case Reap(i) =>
      if i >= |s.list| then Some(MainUnlocks(s, Ready))
      else if s.list[i] in s.heap && s.heap[s.list[i]].flagged then Some(MainUnlocks(s, ReapJoin(s.list[i])))
      else Some(s.(main := Reap(i + 1)))
    case ReapJoin(p) => Join(s, p, ReapRelock(p))
    case ReapRelock(p) => MainLocks(s, ReapRemove(p))
    case ReapRemove(p) => Some(DropIfListed(s, p).(main := Reap(0)))
    case _ => None
  }

  /** cmd_connect. */
  function ConnStep(s: State, c: Choice): Option<State> {
    match s.main
    case ConnLock(a) => MainLocks(s, ConnCheck(a))
    case ConnCheck(a) => Some(MainUnlocks(s, if Connected(s, a) then Idle else ConnOpen(a)))
    case ConnOpen(a) =>
      if c.Got? && c.q !in s.heap then Some(Alloc(s, c.q, a, true).(main := ConnInsert(c.q)))
      else if c.Fail? then Some(s.(main := Idle))
      else None
    case ConnInsert(p) => MainLocks(Push(s, p), ConnLinked(p))
    case ConnLinked(p) => Some(MainUnlocks(s, ConnSpawn(p)))
    case ConnSpawn(p) =>
      if p !in s.heap then None
      else if c.Go? then Some(SetThread(s, p, Receiving).(main := Idle))
      else if c.Fail? then Some(s.(main := ConnUndo(p)))
      else None
    case ConnUndo(p) => if p in s.heap then MainLocks(Drop(s, p), ConnUnlinked) else None
    case ConnUnlinked => Some(MainUnlocks(s, Idle))
    case _ => None
  }

  /** cmd_terminate. */
  function TermStep(s: State): Option<State> {
    match s.main
    case TermLock(id) => MainLocks(s, TermSearch(id))
    case TermSearch(id) =>
      (match Find(s, id, 0)
       case None => Some(MainUnlocks(s, Idle))
       case Some(p) => Some(MainUnlocks(s, TermJoin(p, id)).(heap := s.heap[p := Deactivated(s.heap[p])])))
    case TermJoin(p, id) =>
      // reading p->thread of a node that has been freed since is undefined as well
      if p in s.heap && s.heap[p].id == id then Join(s, p, TermRelock(p)) else Some(s.(main := Undefined))
    case TermRelock(p) => MainLocks(s, TermRemove(p))
    case TermRemove(p) => Some(MainUnlocks(DropIfListed(s, p), Idle))
    case _ => None
  }

  /** cmd_exit; its last loop joins and frees from the front of the list with the lock held. */
  function ExitStep(s: State): Option<State> {
    match s.main
    case ExitLock => MainLocks(s, ExitMark)
    case ExitMark => Some(MainUnlocks(DeactivateListed(s), ExitJoinListener))
    case ExitJoinListener => if s.listener.Ended? then Some(s.(main := ExitRelock)) else None
    case ExitRelock => MainLocks(s, ExitReap)
    case ExitReap =>
      if s.list == [] then Some(MainUnlocks(s, Exited))
      else
        (match Join(s, s.list[0], ExitReap)
         case None => None
         case Some(m) => if m.main.ExitReap? && s.list[0] in m.heap then Some(Drop(m, s.list[0])) else Some(m))
    case _ => None
  }

  predicate InReap(pc: MainPc) {
    pc.ReapLock? || pc.Reap? || pc.ReapJoin? || pc.ReapRelock? || pc.ReapRemove?
  }

  predicate InConnect(pc: MainPc) {
    || pc.ConnLock? || pc.ConnCheck? || pc.ConnOpen? || pc.ConnInsert? || pc.ConnLinked? || pc.ConnSpawn?
    || pc.ConnUndo? || pc.ConnUnlinked?
  }

  predicate InTerminate(pc: MainPc) {
    pc.TermLock? || pc.TermSearch? || pc.TermJoin? || pc.TermRelock? || pc.TermRemove?
  }

  function MainStep(s: State, c: Choice): Option<State> {
    match s.main
    case Idle => Prompt(s, c)
    case Ready => Command(s, c)
    case Exited => None
    case Undefined => None
    case _ =>
      if InReap(s.main) then ReapStep(s)
      else if InConnect(s.main) then ConnStep(s, c)
      else if InTerminate(s.main) then TermStep(s)
      else ExitStep(s)
  }

  /** listener_thread. */
  function ListenerStep(s: State, c: Choice): Option<State> {
    match s.listener
    case Loop => Some(s.(listener := if s.running then Accept else Ended))
    case Accept =>
      if c.Got? && c.q !in s.heap then Some(Alloc(s, c.q, c.a, false).(listener := Insert(c.q)))
      else if c.Fail? then Some(s.(listener := Loop))
      else None
    case Insert(p) => if s.lock.NoOne? then Some(Push(s, p).(lock := TheListener, listener := Linked(p))) else None
    case Linked(p) => Some(s.(lock := NoOne, listener := Spawn(p)))
    case Spawn(p) =>
      if p !in s.heap then None
      else if c.Go? then Some(SetThread(s, p, Receiving).(listener := Loop))
      else if c.Fail? then Some(s.(listener := Undo(p)))
      else None
    case Undo(p) =>
      if s.lock.NoOne? && p in s.heap then Some(Drop(s, p).(lock := TheListener, listener := Unlinked)) else None
    case Unlinked => Some(s.(lock := NoOne, listener := Loop))
    case Ended => None
  }

  /** conn_recv_thread of node p, from line 88 on. */
  function PeerStep(s: State, p: Ptr): Option<State> {
    if p !in s.heap then None
    else
      match s.heap[p].thread
      case Receiving => Some(SetThread(s, p, AtLock))
      case AtLock =>
        if s.lock.NoOne?
        then Some(s.(lock := TheThread(p), heap := s.heap[p := s.heap[p].(active := false, flagged := true, thread := InSection)]))
        else None
      case InSection => Some(SetThread(s, p, PastSection).(lock := NoOne))
      case PastSection => Some(SetThread(s, p, Returned))
      case _ => None
  }

  function Step(s: State, l: Label): Option<State> {
    match l
    case Main(c) => MainStep(s, c)
    case Listen(c) => ListenerStep(s, c)
    case Peer(p) => PeerStep(s, p)
  }

  // ----- the invariant

  /** The node that main, or the listener, has created and not yet given a thread. */
  function MainNew(pc: MainPc): Option<Ptr> {
    match pc
    case ConnInsert(p) => Some(p)
    case ConnLinked(p) => Some(p)
    case ConnSpawn(p) => Some(p)
    case ConnUndo(p) => Some(p)
    case _ => None
  }

  function ListenerNew(pc: ListenerPc): Option<Ptr> {
    match pc
    case Insert(p) => Some(p)
    case Linked(p) => Some(p)
    case Spawn(p) => Some(p)
    case Undo(p) => Some(p)
    case _ => None
  }

  /** The node whose thread main has joined and that it is about to drop. */
  function Dropping(pc: MainPc): Option<Ptr> {
    match pc
    case ReapRelock(p) => Some(p)
    case ReapRemove(p) => Some(p)
    case TermRelock(p) => Some(p)
    case TermRemove(p) => Some(p)
    case _ => None
  }

  predicate MainHolds(pc: MainPc) {
    || pc.Reap? || pc.ReapRemove? || pc.ConnCheck? || pc.ConnLinked? || pc.ConnUnlinked?
    || pc.TermSearch? || pc.TermRemove? || pc.ExitMark? || pc.ExitReap?
  }

  predicate ListenerHolds(pc: ListenerPc) { pc.Linked? || pc.Unlinked? }

  predicate PastFlag(t: Thread) { t.InSection? || t.PastSection? || t.Returned? || t.Joined? }

  predicate InHand(s: State, p: Ptr) { MainNew(s.main) == Some(p) || ListenerNew(s.listener) == Some(p) }

  predicate Opened(n: Node) { n.byMain && n.active }

  /** cmd_exit has been through its first pass. */
  predicate PastMark(pc: MainPc) {
    pc.ExitJoinListener? || pc.ExitRelock? || pc.ExitReap? || pc.Exited?
  }

  /**
    An allocated node is listed, or its creator is about to list it; it lacks a thread only while its
    creator has it in hand; should_remove is set exactly by its thread's final section, and then it is
    not active; it is joined only when main is about to drop it; its id is its own.
  */
  ghost predicate NodeOk(s: State, p: Ptr)
    requires p in s.heap
  {
    var n := s.heap[p];
    && (p in s.list || s.main == ConnInsert(p) || s.listener == Insert(p))
    && (n.thread.NoThread? ==> InHand(s, p))
    && (s.lock == TheThread(p) <==> n.thread.InSection?)
    && (n.flagged <==> PastFlag(n.thread))
    && (n.flagged ==> !n.active)
    && (n.thread.Joined? <==> Dropping(s.main) == Some(p))
    && (s.main.ConnOpen? && Opened(n) ==> n.addr != s.main.a)
    && (PastMark(s.main) ==> !Opened(n))
    && 1 <= n.id < s.nextId
    && n.id !in s.freed
    && (n.id in s.joined <==> n.thread.Joined?)
  }

  /** Ids are unique, and main opens at most one active connection per address. */
  ghost predicate Compatible(s: State, p: Ptr, q: Ptr)
    requires p in s.heap && q in s.heap
  {
    p != q ==>
      && s.heap[p].id != s.heap[q].id
      && (Opened(s.heap[p]) && Opened(s.heap[q]) ==> s.heap[p].addr != s.heap[q].addr)
  }

  ghost predicate NodesOk(s: State) {
    && (forall p {:trigger NodeOk(s, p)} :: p in s.heap ==> NodeOk(s, p))
    && (forall p, q {:trigger Compatible(s, p, q)} :: p in s.heap && q in s.heap ==> Compatible(s, p, q))
  }

  /** The list has no repetition and no dangling pointer. */
  ghost predicate ListOk(s: State) {
    && Distinct(s.list)
    && forall p :: p in s.list ==> p in s.heap
  }

  ghost predicate LockOk(s: State) {
    && (s.lock.TheMain? <==> MainHolds(s.main))
    && (s.lock.TheListener? <==> ListenerHolds(s.listener))
    && (s.lock.TheThread? ==> s.lock.p in s.heap)
  }

  predicate Unflagged(s: State, j: nat) {
    j < |s.list| && s.list[j] in s.heap && !s.heap[s.list[j]].flagged
  }

  predicate Fresh(s: State, p: Ptr, byMain: bool, listed: bool) {
    && p in s.heap && s.heap[p].thread.NoThread? && s.heap[p].byMain == byMain
    && (p in s.list <==> listed)
  }

  ghost predicate MainOk(s: State) {
    match s.main
    case Reap(i) => i <= |s.list| && forall j :: 0 <= j < i ==> Unflagged(s, j)
    case ReapJoin(p) =>
      p in s.list && p in s.heap && (s.heap[p].thread.PastSection? || s.heap[p].thread.Returned?)
    case ReapRelock(p) => p in s.list && p in s.heap && s.heap[p].thread.Joined?
    case ReapRemove(p) => p in s.list && p in s.heap && s.heap[p].thread.Joined?
    case ConnInsert(p) => Fresh(s, p, true, false)
    case ConnLinked(p) => Fresh(s, p, true, true)
    case ConnSpawn(p) => Fresh(s, p, true, true)
    case ConnUndo(p) => Fresh(s, p, true, true)
    case TermJoin(p, id) => id < s.nextId && (p in s.heap && s.heap[p].id == id ==> p in s.list && !s.heap[p].active)
    case TermRelock(p) => p in s.list && p in s.heap && s.heap[p].thread.Joined?
    case TermRemove(p) => p in s.list && p in s.heap && s.heap[p].thread.Joined?
    case ExitLock => !s.running
    case ExitMark => !s.running
    case ExitJoinListener => !s.running
    case ExitRelock => !s.running && s.listener.Ended?
    case ExitReap => !s.running && s.listener.Ended?
    case Exited => !s.running && s.listener.Ended? && s.list == []
    case _ => true
  }

  ghost predicate ListenerOk(s: State) {
    match s.listener
    case Insert(p) => Fresh(s, p, false, false)
    case Linked(p) => Fresh(s, p, false, true)
    case Spawn(p) => Fresh(s, p, false, true)
    case Undo(p) => Fresh(s, p, false, true)
    case _ => true
  }

  ghost predicate LogOk(s: State) {
    && s.nextId >= 1
    && Distinct(s.freed) && Distinct(s.joined)
    && (forall x :: x in s.freed || x in s.joined ==> x < s.nextId)
  }

  ghost predicate Inv(s: State) {
    && ListOk(s) && NodesOk(s) && LockOk(s) && MainOk(s) && ListenerOk(s) && LogOk(s)
  }

  lemma StartInv()
    ensures Inv(Start)
  {
  }
}
