/**
  What holds of every run of the chat program: ids, duplicates, the reaper under interference, and
  when the last phase of cmd_exit can complete.
*/
module ChatRuns {
  import opened Runs
  import opened Lists
  import opened Chat
  import opened ChatInv

  // ----- ids and duplicates

  /** All ids in use, listed or in a creator's hand, are distinct, positive and below next_conn_id. */
  lemma IdsAreUnique(s: State)
    requires Reaches(Step, Start, s)
    ensures forall p :: p in s.heap ==> 1 <= s.heap[p].id < s.nextId
    ensures forall p, q :: p in s.heap && q in s.heap && s.heap[p].id == s.heap[q].id ==> p == q
  {
    ReachableInv(s);
    forall p | p in s.heap
      ensures 1 <= s.heap[p].id < s.nextId
    {
      assert NodeOk(s, p);
    }
    forall p, q | p in s.heap && q in s.heap && s.heap[p].id == s.heap[q].id
      ensures p == q
    {
      assert Compatible(s, p, q);
    }
  }

  /**
    cmd_connect checks for a duplicate in one critical section and inserts in another; still, of the
    connections it opened at most one per address is active.
  */
  lemma OneActivePerAddress(s: State, p: Ptr, q: Ptr)
    requires Reaches(Step, Start, s) && p in s.heap && q in s.heap
    requires Opened(s.heap[p]) && Opened(s.heap[q]) && s.heap[p].addr == s.heap[q].addr
    ensures p == q
  {
    ReachableInv(s);
    assert Compatible(s, p, q);
  }

  // ----- memory and threads

  /** The states in which the next step frees p. */
  ghost predicate AboutToFree(s: State, l: Label, p: Ptr) {
    || (l.Listen? && s.listener == Undo(p))
    || (l.Main? && (s.main == ConnUndo(p) || s.main == ReapRemove(p) || s.main == TermRemove(p)))
    || (l.Main? && s.main.ExitReap? && s.list != [] && s.list[0] == p)
  }

  lemma JoinFreesNothing(s: State, q: Ptr, next: MainPc, p: Ptr)
    requires Join(s, q, next).Some? && p in s.heap
    ensures p in Join(s, q, next).value.heap
  {
  }

  lemma MainFrees(s: State, c: Choice, p: Ptr)
    requires MainStep(s, c).Some? && p in s.heap && p !in MainStep(s, c).value.heap
    ensures AboutToFree(s, Main(c), p)
  {
    if InReap(s.main) {
      if s.main.ReapJoin? {
        JoinFreesNothing(s, s.main.p, ReapRelock(s.main.p), p);
      }
    } else if InConnect(s.main) {
    } else if InTerminate(s.main) {
      if s.main.TermJoin? && Join(s, s.main.p, TermRelock(s.main.p)).Some? {
        JoinFreesNothing(s, s.main.p, TermRelock(s.main.p), p);
      }
    } else if s.main.ExitReap? && s.list != [] {
      JoinFreesNothing(s, s.list[0], ExitReap, p);
    }
  }

  lemma OnlyTheseFree(s: State, l: Label, p: Ptr)
    requires Step(s, l).Some? && p in s.heap && p !in Step(s, l).value.heap
    ensures AboutToFree(s, l, p)
  {
    if l.Main? {
      MainFrees(s, l.c, p);
    }
  }

  lemma FreeLogs(s: State, l: Label, p: Ptr)
    requires Inv(s) && Step(s, l).Some? && p in s.heap && p !in Step(s, l).value.heap && AboutToFree(s, l, p)
    ensures s.heap[p].id in Step(s, l).value.freed
    ensures s.heap[p].thread.NoThread? || s.heap[p].id in Step(s, l).value.joined
  {
    assert NodeOk(s, p);
  }

  /** No step frees a node whose thread may still run, and none frees a node twice. */
  lemma FreeIsSafe(s: State, l: Label, p: Ptr)
    requires Reaches(Step, Start, s) && Step(s, l).Some?
    requires p in s.heap && p !in Step(s, l).value.heap
    ensures s.heap[p].thread.NoThread? || s.heap[p].thread.Joined? || s.heap[p].thread.Returned?
    ensures s.heap[p].thread.NoThread? || s.heap[p].id in Step(s, l).value.joined
    ensures s.heap[p].id !in s.freed && s.heap[p].id in Step(s, l).value.freed
    ensures p !in Step(s, l).value.list
  {
    ReachableInv(s);
    assert NodeOk(s, p);
    StepInv(s, l);
    OnlyTheseFree(s, l, p);
    FreeLogs(s, l, p);
  }

  /** Over a whole run every connection is joined at most once and freed at most once. */
  lemma JoinedAndFreedOnce(s: State)
    requires Reaches(Step, Start, s)
    ensures Distinct(s.joined) && Distinct(s.freed)
    ensures forall p :: p in s.list ==> p in s.heap && s.heap[p].id !in s.freed
  {
    ReachableInv(s);
    forall p | p in s.list
      ensures p in s.heap && s.heap[p].id !in s.freed
    {
      assert NodeOk(s, p);
    }
  }

  // ----- the reaper

  /** Whatever happened while the lock was released, the rescan finds the node, joined and flagged. */
  lemma RescanFindsNode(s: State)
    requires Reaches(Step, Start, s) && s.main.ReapRemove?
    ensures s.main.p in s.list && s.main.p in s.heap
    ensures s.heap[s.main.p].thread.Joined? && s.heap[s.main.p].flagged
  {
    ReachableInv(s);
    assert NodeOk(s, s.main.p);
  }

  /** The thread the reaper joins is past its last use of the lock: it returns in at most one step. */
  lemma ReaperJoinIsShort(s: State)
    requires Reaches(Step, Start, s) && s.main.ReapJoin?
    ensures var p := s.main.p;
      || (Step(s, Main(Go)).Some? && Step(s, Main(Go)).value.main == ReapRelock(p))
      || (Step(s, Peer(p)).Some? && Step(Step(s, Peer(p)).value, Main(Go)).Some?
          && Step(Step(s, Peer(p)).value, Main(Go)).value.main == ReapRelock(p))
  {
    ReachableInv(s);
    assert NodeOk(s, s.main.p);
  }

  /**
    s' extends the logs of s, and p, if still allocated, is the same connection, flagged if it was, and
    not active again.
  */
  ghost predicate Persists(s: State, s': State, p: Ptr)
    requires p in s.heap
  {
    && (forall x :: x in s.freed ==> x in s'.freed) && (forall x :: x in s.joined ==> x in s'.joined)
    && (p in s'.heap ==>
          && s'.heap[p].id == s.heap[p].id
          && (s.heap[p].flagged ==> s'.heap[p].flagged)
          && (s'.heap[p].active ==> s.heap[p].active))
  }

  lemma JoinPersists(s: State, q: Ptr, next: MainPc, p: Ptr)
    requires Join(s, q, next).Some? && p in s.heap
    ensures Persists(s, Join(s, q, next).value, p)
  {
  }

  lemma ExitPersists(s: State, p: Ptr)
    requires ExitStep(s).Some? && p in s.heap
    ensures Persists(s, ExitStep(s).value, p)
  {
    if s.main.ExitReap? && s.list != [] {
      JoinPersists(s, s.list[0], ExitReap, p);
    }
  }

  lemma ConnPersists(s: State, c: Choice, p: Ptr)
    requires ConnStep(s, c).Some? && p in s.heap
    ensures Persists(s, ConnStep(s, c).value, p)
  {
  }

  lemma ReapPersists(s: State, p: Ptr)
    requires ReapStep(s).Some? && p in s.heap
    ensures Persists(s, ReapStep(s).value, p)
  {
    if s.main.ReapJoin? {
      JoinPersists(s, s.main.p, ReapRelock(s.main.p), p);
    }
  }

  lemma TermPersists(s: State, p: Ptr)
    requires TermStep(s).Some? && p in s.heap
    ensures Persists(s, TermStep(s).value, p)
  {
    if s.main.TermJoin? && Join(s, s.main.p, TermRelock(s.main.p)).Some? {
      JoinPersists(s, s.main.p, TermRelock(s.main.p), p);
    }
  }

  lemma MainPersists(s: State, c: Choice, p: Ptr)
    requires MainStep(s, c).Some? && p in s.heap
    ensures Persists(s, MainStep(s, c).value, p)
  {
    if s.main.Idle? || s.main.Ready? {
    } else if InReap(s.main) {
      ReapPersists(s, p);
    } else if InConnect(s.main) {
      ConnPersists(s, c, p);
    } else if InTerminate(s.main) {
      TermPersists(s, p);
    } else {
      ExitPersists(s, p);
    }
  }

  lemma ListenerPersists(s: State, c: Choice, p: Ptr)
    requires ListenerStep(s, c).Some? && p in s.heap
    ensures Persists(s, ListenerStep(s, c).value, p)
  {
  }

  lemma PeerPersists(s: State, q: Ptr, p: Ptr)
    requires PeerStep(s, q).Some? && p in s.heap
    ensures Persists(s, PeerStep(s, q).value, p)
  {
  }

  lemma StepPersists(s: State, l: Label, p: Ptr)
    requires Step(s, l).Some? && p in s.heap
    ensures Persists(s, Step(s, l).value, p)
  {
    match l
    case Main(c) => MainPersists(s, c, p);
    case Listen(c) => ListenerPersists(s, c, p);
    case Peer(q) => PeerPersists(s, q, p);
  }

  lemma StepLogsGrow(s: State, l: Label)
    requires Step(s, l).Some?
    ensures s.freed <= Step(s, l).value.freed && s.joined <= Step(s, l).value.joined
  {
    if l.Main? && s.main.ExitReap? && s.list != [] {
      JoinLogs(s, s.list[0], ExitReap);
    } else if l.Main? && s.main.ReapJoin? {
      JoinLogs(s, s.main.p, ReapRelock(s.main.p));
    } else if l.Main? && s.main.TermJoin? && Join(s, s.main.p, TermRelock(s.main.p)).Some? {
      JoinLogs(s, s.main.p, TermRelock(s.main.p));
    }
  }

  lemma JoinLogs(s: State, q: Ptr, next: MainPc)
    requires Join(s, q, next).Some?
    ensures s.freed <= Join(s, q, next).value.freed && s.joined <= Join(s, q, next).value.joined
  {
  }

  lemma {:induction false} LogsGrow(s: State, ls: seq<Label>)
    requires Exec(Step, s, ls).Some?
    ensures s.freed <= Exec(Step, s, ls).value.freed && s.joined <= Exec(Step, s, ls).value.joined
    decreases |ls|
  {
    if ls != [] {
      StepLogsGrow(s, ls[0]);
      LogsGrow(Step(s, ls[0]).value, ls[1..]);
    }
  }

  /** A flagged node stays flagged until it has been joined and freed. */
  lemma {:induction false} FlaggedUntilFreed(s: State, ls: seq<Label>, p: Ptr)
    requires Inv(s) && Exec(Step, s, ls).Some? && p in s.heap && s.heap[p].flagged
    ensures var s', id := Exec(Step, s, ls).value, s.heap[p].id;
      || (id in s'.freed && id in s'.joined)
      || (p in s'.heap && s'.heap[p].id == id && s'.heap[p].flagged)
    decreases |ls|
  {
    if ls != [] {
      var m := Step(s, ls[0]).value;
      StepInv(s, ls[0]);
      StepPersists(s, ls[0], p);
      assert NodeOk(s, p);
      if p in m.heap {
        FlaggedUntilFreed(m, ls[1..], p);
      } else {
        OnlyTheseFree(s, ls[0], p);
        FreeLogs(s, ls[0], p);
        LogsGrow(m, ls[1..]);
      }
    }
  }

  /**
    The reaper misses nobody: every node that is flagged at some point has been joined and freed by the
    time any later reap unlocks for good, whatever the other threads did to the list in between.
  */
  lemma ReapCollectsAll(s: State, ls: seq<Label>, p: Ptr)
    requires Reaches(Step, Start, s) && p in s.heap && s.heap[p].flagged && Exec(Step, s, ls).Some?
    requires var e := Exec(Step, s, ls).value; e.main.Reap? && e.main.i >= |e.list|
    ensures var e := Exec(Step, s, ls).value; s.heap[p].id in e.joined && s.heap[p].id in e.freed
  {
    ReachableInv(s);
    RunInv(s, ls);
    FlaggedUntilFreed(s, ls, p);
    CleanAtEnd(Exec(Step, s, ls).value);
  }

  /** At the end of the traversal no node is flagged at all: flagged nodes are always listed. */
  lemma CleanAtEnd(e: State)
    requires Inv(e) && e.main.Reap? && e.main.i >= |e.list|
    ensures forall p :: p in e.heap ==> !e.heap[p].flagged
  {
    forall p | p in e.heap
      ensures !e.heap[p].flagged
    {
      assert NodeOk(e, p);
      if p in e.list {
        var j :| 0 <= j < |e.list| && e.list[j] == p;
        assert Unflagged(e, j);
      }
    }
  }

  /** However main leaves the reaper, at that moment no node has should_remove set. */
  lemma ReapEndsClean(s: State, l: Label)
    requires Reaches(Step, Start, s) && InReap(s.main) && Step(s, l).Some? && !InReap(Step(s, l).value.main)
    ensures var s' := Step(s, l).value;
      s'.main.Ready? && s'.list == s.list && forall p :: p in s'.heap ==> !s'.heap[p].flagged
  {
    ReachableInv(s);
    ReapLeaves(s);
    CleanAtEnd(s);
  }

  lemma ReapLeaves(s: State)
    requires Inv(s) && InReap(s.main) && ReapStep(s).Some? && !InReap(ReapStep(s).value.main)
    ensures s.main.Reap? && s.main.i >= |s.list|
  {
  }

  /** Main does not leave the reaper before the last step of the schedule. */
  ghost predicate InsideReap(s: State, ls: seq<Label>)
    decreases |ls|
  {
    ls != [] ==> InReap(s.main) && Step(s, ls[0]).Some? && InsideReap(Step(s, ls[0]).value, ls[1..])
  }

  lemma {:induction false} RunReap(s: State, ls: seq<Label>, p: Ptr)
    requires Inv(s) && InReap(s.main) && InsideReap(s, ls) && p in s.heap && s.heap[p].flagged
    requires Exec(Step, s, ls).Some? && Exec(Step, s, ls).value.main.Ready?
    ensures s.heap[p].id in Exec(Step, s, ls).value.freed && s.heap[p].id in Exec(Step, s, ls).value.joined
    decreases |ls|
  {
    var l, m := ls[0], Step(s, ls[0]).value;
    StepInv(s, l);
    StepPersists(s, l, p);
    if p !in m.heap {
      assert NodeOk(s, p);
      OnlyTheseFree(s, l, p);
      FreeLogs(s, l, p);
      LogsGrow(m, ls[1..]);
    } else if InReap(m.main) {
      RunReap(m, ls[1..], p);
    } else {
      ReapLeaves(s);
      CleanAtEnd(s);
    }
  }

  /**
    Every line that is read, and cmd_list once more at its end, reaps: what was flagged at that moment
    has been joined and freed before the next command is due.
  */
  lemma EveryLineReaps(s: State, c: Choice, ls: seq<Label>, p: Ptr)
    requires Reaches(Step, Start, s) && ((s.main.Idle? && c.ReadLine?) || (s.main.Ready? && c.DoList?))
    requires p in s.heap && s.heap[p].flagged
    requires Step(s, Main(c)).Some? && InsideReap(Step(s, Main(c)).value, ls)
    requires Exec(Step, Step(s, Main(c)).value, ls).Some? && Exec(Step, Step(s, Main(c)).value, ls).value.main.Ready?
    ensures var e := Exec(Step, Step(s, Main(c)).value, ls).value; s.heap[p].id in e.joined && s.heap[p].id in e.freed
  {
    ReachableInv(s);
    StepInv(s, Main(c));
    RunReap(Step(s, Main(c)).value, ls, p);
  }

  // ----- the list only changes by insertion in front and by deletion

  ghost predicate Pushed(s: State, s': State, p: Ptr) {
    p in s.heap && p !in s.list && s'.list == [p] + s.list && s'.freed == s.freed
  }

  ghost predicate Dropped(s: State, s': State, p: Ptr) {
    p in s.heap && p in s.list && s'.list == Remove(s.list, p) && s'.freed == s.freed + [s.heap[p].id]
  }

  /** What one step may do to the list: nothing, one node in front, or one node unlinked and freed. */
  ghost predicate ListChange(s: State, s': State) {
    || (s'.list == s.list && s'.freed == s.freed)
    || (exists p :: Pushed(s, s', p))
    || (exists p :: Dropped(s, s', p))
  }

  lemma JoinKeepsList(s: State, p: Ptr, next: MainPc)
    requires Join(s, p, next).Some?
    ensures Join(s, p, next).value.list == s.list && Join(s, p, next).value.freed == s.freed
    ensures p in s.heap ==> p in Join(s, p, next).value.heap && Join(s, p, next).value.heap[p].id == s.heap[p].id
  {
  }

  lemma ReapListChange(s: State)
    requires Inv(s) && ReapStep(s).Some?
    ensures ListChange(s, ReapStep(s).value)
  {
    if s.main.ReapJoin? {
      JoinKeepsList(s, s.main.p, ReapRelock(s.main.p));
    } else if s.main.ReapRemove? {
      assert Dropped(s, ReapStep(s).value, s.main.p);
    }
  }

  lemma ConnListChange(s: State, c: Choice)
    requires Inv(s) && ConnStep(s, c).Some?
    ensures ListChange(s, ConnStep(s, c).value)
  {
    if s.main.ConnInsert? {
      assert Pushed(s, ConnStep(s, c).value, s.main.p);
    } else if s.main.ConnUndo? {
      assert Dropped(s, ConnStep(s, c).value, s.main.p);
    }
  }

  lemma TermListChange(s: State)
    requires Inv(s) && TermStep(s).Some?
    ensures ListChange(s, TermStep(s).value)
  {
    if s.main.TermRemove? {
      assert Dropped(s, TermStep(s).value, s.main.p);
    }
  }

  lemma ExitListChange(s: State)
    requires Inv(s) && ExitStep(s).Some?
    ensures ListChange(s, ExitStep(s).value)
  {
    if s.main.ExitReap? && s.list != [] {
      JoinKeepsList(s, s.list[0], ExitReap);
      assert s.list[0] in s.list && NodeOk(s, s.list[0]);
      assert Dropped(s, ExitStep(s).value, s.list[0]);
    }
  }

  lemma MainListChange(s: State, c: Choice)
    requires Inv(s) && MainStep(s, c).Some?
    ensures ListChange(s, MainStep(s, c).value)
  {
    if s.main.Idle? || s.main.Ready? {
    } else if InReap(s.main) {
      ReapListChange(s);
    } else if InConnect(s.main) {
      ConnListChange(s, c);
    } else if InTerminate(s.main) {
      TermListChange(s);
    } else {
      ExitListChange(s);
    }
  }

  lemma ListStep(s: State, l: Label)
    requires Inv(s) && Step(s, l).Some?
    ensures ListChange(s, Step(s, l).value)
  {
    if l.Main? {
      MainListChange(s, l.c);
    } else if l.Listen? && s.listener.Insert? {
      assert Pushed(s, Step(s, l).value, s.listener.p);
    } else if l.Listen? && s.listener.Undo? {
      assert Dropped(s, Step(s, l).value, s.listener.p);
    }
  }

  /** The nodes of a list of s whose connection is not among the freed ones, in their order. */
  function Unfreed(s: State, list: seq<Ptr>, freed: seq<int>): seq<Ptr> {
    if list == [] then []
    else (if list[0] in s.heap && s.heap[list[0]].id !in freed then [list[0]] else []) + Unfreed(s, list[1..], freed)
  }

  lemma {:induction false} UnfreedMembers(s: State, list: seq<Ptr>, freed: seq<int>)
    ensures forall x :: x in Unfreed(s, list, freed) <==> x in list && x in s.heap && s.heap[x].id !in freed
  {
    if list != [] {
      UnfreedMembers(s, list[1..], freed);
    }
  }

  lemma {:induction false} UnfreedAll(s: State, list: seq<Ptr>, freed: seq<int>)
    requires forall x :: x in list ==> x in s.heap && s.heap[x].id !in freed
    ensures Unfreed(s, list, freed) == list
  {
    if list != [] {
      UnfreedAll(s, list[1..], freed);
    }
  }

  /** Freeing a connection that is not on the list leaves the rest as it was. */
  lemma {:induction false} UnfreedOther(s: State, list: seq<Ptr>, freed: seq<int>, id: int)
    requires forall x :: x in list && x in s.heap && s.heap[x].id == id ==> id in freed
    ensures Unfreed(s, list, freed + [id]) == Unfreed(s, list, freed)
  {
    if list != [] {
      assert list[0] in list;
      UnfreedOther(s, list[1..], freed, id);
    }
  }

  /** Freeing one that is takes its node out of the rest. */
  lemma {:induction false} UnfreedOne(s: State, list: seq<Ptr>, freed: seq<int>, p: Ptr)
    requires Distinct(list) && p in list && p in s.heap && s.heap[p].id !in freed
    requires forall x :: x in list && x in s.heap && s.heap[x].id == s.heap[p].id ==> x == p
    ensures Unfreed(s, list, freed + [s.heap[p].id]) == Remove(Unfreed(s, list, freed), p)
  {
    var rest := list[1..];
    assert list == [list[0]] + rest;
    DistinctTail([list[0]], rest);
    if list[0] == p {
      assert forall i :: 0 <= i < |rest| ==> rest[i] == list[i + 1];
      UnfreedOther(s, rest, freed, s.heap[p].id);
    } else {
      assert list[0] in list;
      UnfreedOne(s, rest, freed, p);
      RemoveConcat(if list[0] in s.heap && s.heap[list[0]].id !in freed then [list[0]] else [], Unfreed(s, rest, freed), p);
    }
  }

  /** Between s and e the list has kept what was not freed, and has new connections in front. */
  ghost predicate Kept(s: State, e: State, added: seq<Ptr>) {
    && e.list == added + Unfreed(s, s.list, e.freed)
    && (forall x :: x in s.list && x in s.heap && s.heap[x].id !in e.freed ==> x in e.heap && e.heap[x].id == s.heap[x].id)
    && (forall x, y :: x in added && y in s.list && y in s.heap ==> x in e.heap && e.heap[x].id != s.heap[y].id)
  }

  lemma KeptPush(s: State, e: State, e': State, added: seq<Ptr>, p: Ptr)
    requires Inv(s) && Inv(e) && Kept(s, e, added) && Pushed(e, e', p)
    requires forall x :: x in e.heap && x in e'.list ==> x in e'.heap && e'.heap[x].id == e.heap[x].id
    ensures Kept(s, e', [p] + added)
  {
    PushedIsNew(s, e, added, p);
    UnfreedMembers(s, s.list, e.freed);
    assert e'.list == ([p] + added) + Unfreed(s, s.list, e.freed);
    assert forall x :: x in e.list ==> x in e'.list && x in e.heap;
  }

  lemma PushedIsNew(s: State, e: State, added: seq<Ptr>, p: Ptr)
    requires Inv(s) && Inv(e) && Kept(s, e, added) && p in e.heap && p !in e.list
    ensures forall y :: y in s.list ==> e.heap[p].id != s.heap[y].id
  {
    UnfreedMembers(s, s.list, e.freed);
    forall y | y in s.list
      ensures e.heap[p].id != s.heap[y].id
    {
      assert NodeOk(e, p);
      if s.heap[y].id !in e.freed {
        assert y in Unfreed(s, s.list, e.freed);
        assert Compatible(e, p, y);
      }
    }
  }

  lemma KeptDrop(s: State, e: State, e': State, added: seq<Ptr>, p: Ptr) returns (added': seq<Ptr>)
    requires Inv(s) && Inv(e) && Kept(s, e, added) && Dropped(e, e', p)
    requires forall x :: x in e.heap && x in e'.list ==> x in e'.heap && e'.heap[x].id == e.heap[x].id
    ensures Kept(s, e', added')
  {
    added' := DropSplits(s, e, added, p);
    RemoveMembers(e.list, p);
    UnfreedMembers(s, s.list, e'.freed);
    forall x | x in s.list && x in s.heap && s.heap[x].id !in e'.freed
      ensures x in e'.heap && e'.heap[x].id == s.heap[x].id
    {
      assert s.heap[x].id !in e.freed && x in Unfreed(s, s.list, e'.freed) && x in e'.list;
    }
    forall x | x in added'
      ensures x in added && x in e'.heap && x in e.heap && e'.heap[x].id == e.heap[x].id
    {
      assert x in e'.list;
    }
  }

  /** Dropping p takes it out of the new part or out of the old one. */
  lemma DropSplits(s: State, e: State, added: seq<Ptr>, p: Ptr) returns (added': seq<Ptr>)
    requires Inv(s) && Inv(e) && Kept(s, e, added) && p in e.heap && p in e.list
    ensures Remove(e.list, p) == added' + Unfreed(s, s.list, e.freed + [e.heap[p].id])
    ensures forall x :: x in added' ==> x in added
  {
    var kept, id := Unfreed(s, s.list, e.freed), e.heap[p].id;
    RemoveConcat(added, kept, p);
    UnfreedMembers(s, s.list, e.freed);
    assert NodeOk(e, p);
    if p in added {
      added' := Remove(added, p);
      assert Distinct(added) by { assert forall i :: 0 <= i < |added| ==> e.list[i] == added[i]; }
      RemoveMembers(added, p);
      UnfreedOther(s, s.list, e.freed, id);
    } else {
      added' := added;
      assert p in kept;
      forall x | x in s.list && x in s.heap && s.heap[x].id == id
        ensures x == p
      {
        assert Compatible(s, x, p);
      }
      UnfreedOne(s, s.list, e.freed, p);
    }
  }

  lemma KeptStep(s: State, e: State, l: Label, added: seq<Ptr>) returns (added': seq<Ptr>)
    requires Inv(s) && Inv(e) && Kept(s, e, added) && Step(e, l).Some?
    ensures Kept(s, Step(e, l).value, added')
  {
    var e' := Step(e, l).value;
    ListStep(e, l);
    StepInv(e, l);
    forall x | x in e.heap && x in e'.list
      ensures x in e'.heap && e'.heap[x].id == e.heap[x].id
    {
      StepPersists(e, l, x);
    }
    if p :| Pushed(e, e', p) {
      added' := [p] + added;
      KeptPush(s, e, e', added, p);
    } else if p :| Dropped(e, e', p) {
      added' := KeptDrop(s, e, e', added, p);
    } else {
      added' := added;
      UnfreedMembers(s, s.list, e.freed);
    }
  }

  lemma {:induction false} KeptRun(s: State, ls: seq<Label>) returns (added: seq<Ptr>)
    requires Inv(s) && Exec(Step, s, ls).Some?
    ensures Kept(s, Exec(Step, s, ls).value, added)
    decreases |ls|
  {
    if ls == [] {
      added := [];
      forall x | x in s.list
        ensures s.heap[x].id !in s.freed
      {
        assert NodeOk(s, x);
      }
      UnfreedAll(s, s.list, s.freed);
    } else {
      var front, last := ls[..|ls| - 1], ls[|ls| - 1];
      assert ls == front + [last];
      ExecConcat(Step, s, front, [last]);
      RunInv(s, front);
      added := KeptRun(s, front);
      var m := Exec(Step, s, front).value;
      LastStep(m, last);
      added := KeptStep(s, m, last, added);
    }
  }

  /**
    Over any run, whatever the threads do, the list at the end is the old list without the connections
    that have been freed, in the old order and each node still the same connection, with connections in
    front of it that were not listed before.
  */
  lemma OrderIsKept(s: State, ls: seq<Label>) returns (added: seq<Ptr>)
    requires Reaches(Step, Start, s) && Exec(Step, s, ls).Some?
    ensures var e := Exec(Step, s, ls).value;
      && e.list == added + Unfreed(s, s.list, e.freed)
      && (forall y :: y in s.list ==> y in s.heap)
      && (forall y :: y in s.list ==>
            if s.heap[y].id in e.freed then forall x :: x in e.list && x in e.heap ==> e.heap[x].id != s.heap[y].id
            else y in e.list && y in e.heap && e.heap[y].id == s.heap[y].id)
      && (forall x, y :: x in added && y in s.list ==> x in e.heap && e.heap[x].id != s.heap[y].id)
  {
    ReachableInv(s);
    RunInv(s, ls);
    added := KeptRun(s, ls);
    var e := Exec(Step, s, ls).value;
    UnfreedMembers(s, s.list, e.freed);
    forall x | x in e.heap
      ensures e.heap[x].id !in e.freed
    {
      assert NodeOk(e, x);
    }
  }

  lemma LastStep(m: State, l: Label)
    requires Exec(Step, m, [l]).Some?
    ensures Step(m, l) == Exec(Step, m, [l])
  {
    assert Exec(Step, Step(m, l).value, []) == Step(m, l);
  }

  // ----- cmd_exit

  /** A connection that is not active is never active again, at whatever address it is looked for. */
  lemma {:induction false} NeverActiveAgain(s: State, ls: seq<Label>, p: Ptr, q: Ptr)
    requires Inv(s) && p in s.heap && !s.heap[p].active && Exec(Step, s, ls).Some?
    requires var e := Exec(Step, s, ls).value; q in e.heap && e.heap[q].id == s.heap[p].id
    ensures !Exec(Step, s, ls).value.heap[q].active
    decreases |ls|
  {
    if ls == [] {
      assert Compatible(s, p, q);
    } else {
      var m, e := Step(s, ls[0]).value, Exec(Step, s, ls).value;
      StepInv(s, ls[0]);
      StepPersists(s, ls[0], p);
      if p in m.heap {
        NeverActiveAgain(m, ls[1..], p, q);
      } else {
        OnlyTheseFree(s, ls[0], p);
        FreeLogs(s, ls[0], p);
        LogsGrow(m, ls[1..]);
        RunInv(m, ls[1..]);
        assert NodeOk(e, q);
      }
    }
  }

  /**
    After the first pass of cmd_exit no connection that was listed then is ever active again, however
    long the program runs on.
  */
  lemma ExitDeactivates(s: State, c: Choice, ls: seq<Label>, p: Ptr, q: Ptr)
    requires Reaches(Step, Start, s) && s.main.ExitMark? && p in s.list
    requires Step(s, Main(c)).Some? && Exec(Step, Step(s, Main(c)).value, ls).Some?
    ensures p in s.heap
    ensures var e := Exec(Step, Step(s, Main(c)).value, ls).value;
      q in e.heap && e.heap[q].id == s.heap[p].id ==> !e.heap[q].active
  {
    ReachableInv(s);
    StepInv(s, Main(c));
    var m := Step(s, Main(c)).value;
    assert p in m.heap && !m.heap[p].active && m.heap[p].id == s.heap[p].id;
    if q in Exec(Step, m, ls).value.heap && Exec(Step, m, ls).value.heap[q].id == s.heap[p].id {
      NeverActiveAgain(m, ls, p, q);
    }
  }

  /** From then on no connection that main opened is active at all, listed then or not. */
  lemma OpenedAreInactive(s: State, p: Ptr)
    requires Reaches(Step, Start, s) && PastMark(s.main) && p in s.heap && s.heap[p].byMain
    ensures !s.heap[p].active && !s.running
  {
    ReachableInv(s);
    assert NodeOk(s, p);
  }

  ghost predicate CanExit(s: State) {
    exists s' :: Reaches(Step, s, s') && s'.main.Exited?
  }

  predicate PastLock(n: Node) { n.thread.PastSection? || n.thread.Returned? }

  /** With main inside its last loop every listed node has a thread that is not being dropped. */
  lemma ExitNode(s: State, p: Ptr)
    requires Inv(s) && s.main.ExitReap? && p in s.list
    ensures p in s.heap && !PastLock(s.heap[p]) ==> s.heap[p].thread.Receiving? || s.heap[p].thread.AtLock?
  {
    assert NodeOk(s, p);
  }

  /** A thread that still needs the lock never gets it, and main never gets past its node. */
  lemma StaysBlocked(s: State, l: Label, p: Ptr)
    requires Inv(s) && s.main.ExitReap? && p in s.list && !PastLock(s.heap[p]) && Step(s, l).Some?
    ensures var s' := Step(s, l).value; s'.main.ExitReap? && p in s'.list && p in s'.heap && !PastLock(s'.heap[p])
  {
    StepInv(s, l);
    ExitNode(s, p);
    assert NodeOk(s, p);
    if l.Main? {
      assert s.list[0] in s.list && NodeOk(s, s.list[0]);
      RemoveMembers(s.list, s.list[0]);
    }
  }

  lemma {:induction false} BlockedForever(s: State, ls: seq<Label>, p: Ptr)
    requires Inv(s) && s.main.ExitReap? && p in s.list && !PastLock(s.heap[p])
    requires Exec(Step, s, ls).Some?
    ensures Exec(Step, s, ls).value.main.ExitReap? && Exec(Step, s, ls).value.lock.TheMain?
    decreases |ls|
  {
    if ls != [] {
      StaysBlocked(s, ls[0], p);
      StepInv(s, ls[0]);
      BlockedForever(Step(s, ls[0]).value, ls[1..], p);
    }
  }

  /** With the listener gone and main at its last loop, no node is in anybody's hand. */
  lemma AllListed(s: State)
    requires Inv(s) && (s.main.ExitReap? || s.main.Exited?)
    ensures forall p :: p in s.heap ==> p in s.list
  {
    forall p | p in s.heap
      ensures p in s.list
    {
      assert NodeOk(s, p);
    }
  }

  /** Joining and freeing from the front, once every listed thread is past its section. */
  lemma {:induction false} ExitCompletes(s: State) returns (s': State)
    requires Inv(s) && s.main.ExitReap? && forall p :: p in s.list ==> PastLock(s.heap[p])
    ensures Reaches(Step, s, s') && s'.main.Exited? && s'.heap == map[] && s'.list == []
    decreases |s.list|
  {
    if s.list == [] {
      s' := Step(s, Main(Go)).value;
      ReachesStep(Step, s, Main(Go), s');
      AllListed(s);
      assert s.heap == map[];
    } else {
      var p := s.list[0];
      assert p in s.list && NodeOk(s, p);
      var m := ReturnFirst(s);
      var n := Step(m, Main(Go)).value;
      StepInv(m, Main(Go));
      ReachesStep(Step, m, Main(Go), n);
      RemoveMembers(m.list, p);
      assert forall q :: q in n.list ==> q in s.list;
      s' := ExitCompletes(n);
      ReachesTrans(Step, s, m, n);
      ReachesTrans(Step, s, n, s');
    }
  }

  lemma ReturnFirst(s: State) returns (m: State)
    requires Inv(s) && s.main.ExitReap? && s.list != [] && forall p :: p in s.list ==> PastLock(s.heap[p])
    ensures Reaches(Step, s, m) && Inv(m) && m.main.ExitReap? && m.list == s.list
    ensures m.heap[m.list[0]].thread.Returned?
    ensures forall p :: p in m.list ==> PastLock(m.heap[p])
  {
    var p := s.list[0];
    assert p in s.list;
    if s.heap[p].thread.Returned? {
      m := s;
      ReachesSelf(Step, s);
    } else {
      m := Step(s, Peer(p)).value;
      StepInv(s, Peer(p));
      ReachesStep(Step, s, Peer(p), m);
    }
  }

  /**
    Shutdown: once main has taken the lock at line 345, cmd_exit can complete, with every node joined
    and freed, if and only if every listed node's thread is already past its own final critical
    section. Otherwise every continuation leaves main waiting with the lock held.
  */
  lemma ExitIffThreadsPastLock(s: State)
    requires Reaches(Step, Start, s) && s.main.ExitReap?
    ensures CanExit(s) <==> forall p :: p in s.list ==> p in s.heap && PastLock(s.heap[p])
  {
    ReachableInv(s);
    if forall p :: p in s.list ==> PastLock(s.heap[p]) {
      var s' := ExitCompletes(s);
    } else {
      var p :| p in s.list && !PastLock(s.heap[p]);
      forall s' | Reaches(Step, s, s')
        ensures !s'.main.Exited?
      {
        var ls: seq<Label> :| Exec(Step, s, ls) == Some(s');
        BlockedForever(s, ls, p);
      }
    }
  }
}
