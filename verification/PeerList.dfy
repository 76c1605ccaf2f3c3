/**
  The heap linked list of connections, as the code inside the critical sections changes it. `nodes` is
  the list seen as a sequence; every unlink is the sequence deletion of module Lists.
*/
module PeerList {
  import opened Lists

  class PeerConn {
    const id: int
    const ip: nat
    const port: nat
    var active: bool
    var should_remove: bool
    var next: PeerConn?

    constructor (id: int, ip: nat, port: nat)
      ensures this.id == id && this.ip == ip && this.port == port
      ensures active && !should_remove && next == null
    {
      this.id, this.ip, this.port := id, ip, port;
      active, should_remove, next := true, false, null;
    }
  }

  /** The nodes of a sequence whose should_remove is, or is not, set; in order. */
  ghost function Select(ns: seq<PeerConn>, flag: bool): seq<PeerConn>
    reads ns`should_remove
  {
    if ns == [] then []
    else (if ns[0].should_remove == flag then [ns[0]] else []) + Select(ns[1..], flag)
  }

  lemma {:induction false} SelectConcat(a: seq<PeerConn>, b: seq<PeerConn>, flag: bool)
    ensures Select(a + b, flag) == Select(a, flag) + Select(b, flag)
  {
    if a == [] {
      assert a + b == b;
    } else {
      assert (a + b)[1..] == a[1..] + b;
      SelectConcat(a[1..], b, flag);
    }
  }

  lemma {:induction false} SelectAll(a: seq<PeerConn>, flag: bool)
    requires forall i :: 0 <= i < |a| ==> a[i].should_remove == flag
    ensures Select(a, flag) == a && Select(a, !flag) == []
  {
    if a != [] {
      assert forall i :: 0 <= i < |a[1..]| ==> a[1..][i] == a[i + 1];
      SelectAll(a[1..], flag);
    }
  }

  lemma SelectAt(ns: seq<PeerConn>, k: nat, flag: bool)
    requires k < |ns|
    ensures Select(ns, flag)
         == Select(ns[..k], flag) + (if ns[k].should_remove == flag then [ns[k]] else []) + Select(ns[k + 1..], flag)
  {
    assert ns == ns[..k] + ns[k..];
    SelectConcat(ns[..k], ns[k..], flag);
    assert ns[k..][1..] == ns[k + 1..];
  }

  /** Taking out a node takes it out of its selection and leaves the other selection alone. */
  lemma SelectDrop(ns: seq<PeerConn>, k: nat, flag: bool)
    requires k < |ns| && ns[k].should_remove != flag
    ensures Select(ns[..k] + ns[k + 1..], flag) == Select(ns, flag)
  {
    var front, back := ns[..k], ns[k + 1..];
    SelectConcat(front, back, flag);
    SelectAt(ns, k, flag);
    assert Select(front, flag) + [] == Select(front, flag);
  }

  /** The first flagged node is the first of the flagged ones. */
  lemma SelectFirst(ns: seq<PeerConn>, k: nat)
    requires k < |ns| && ns[k].should_remove && forall i :: 0 <= i < k ==> !ns[i].should_remove
    ensures [ns[k]] + Select(ns[..k] + ns[k + 1..], true) == Select(ns, true)
  {
    var front, back := ns[..k], ns[k + 1..];
    SelectNone(front);
    SelectConcat(front, back, true);
    SelectAt(ns, k, true);
    assert [] + Select(back, true) == Select(back, true);
  }

  lemma SelectNone(a: seq<PeerConn>)
    requires forall i :: 0 <= i < |a| ==> !a[i].should_remove
    ensures Select(a, true) == []
  {
    SelectAll(a, false);
    assert Select(a, !false) == [];
  }

  lemma Regroup(a: seq<PeerConn>, x: PeerConn, b: seq<PeerConn>)
    ensures (a + [x]) + b == a + ([x] + b)
  {
  }

  class ConnList {
    var head: PeerConn?
    ghost var nodes: seq<PeerConn>
    ghost var freed: seq<PeerConn>

    ghost predicate Valid()
      reads this, nodes
    {
      && Distinct(nodes)
      && head == (if nodes == [] then null else nodes[0])
      && forall i {:trigger nodes[i].next} :: 0 <= i < |nodes| ==>
           nodes[i].next == if i + 1 < |nodes| then nodes[i + 1] else null
    }

    constructor ()
      ensures Valid() && nodes == [] && freed == []
    {
      head, nodes, freed := null, [], [];
    }

    /** The end of add_connection: insert in front. */
    method Insert(p: PeerConn)
      requires Valid() && p !in nodes
      modifies this, p`next
      ensures Valid() && nodes == [p] + old(nodes) && freed == old(freed)
    {
      DistinctCons(p, nodes);
      p.next := head;
      head := p;
      nodes := [p] + nodes;
    }

    /** find_connection_by_id: the first node with that id. */
    method FindById(id: int) returns (r: PeerConn?)
      requires Valid()
      ensures r == null ==> forall i :: 0 <= i < |nodes| ==> nodes[i].id != id
      ensures r != null ==> exists k :: 0 <= k < |nodes| && nodes[k] == r && r.id == id
                                    && forall i :: 0 <= i < k ==> nodes[i].id != id
    {
      r := head;
      ghost var k := 0;
      while r != null
        invariant 0 <= k <= |nodes| && r == (if k < |nodes| then nodes[k] else null)
        invariant forall i :: 0 <= i < k ==> nodes[i].id != id
        decreases |nodes| - k
      {
        if r.id == id {
          return;
        }
        assert nodes[k].next == r.next;
        r := r.next;
        k := k + 1;
      }
    }

    /** The duplicate check of cmd_connect. */
    method IsConnected(ip: nat, port: nat) returns (dup: bool)
      requires Valid()
      ensures dup <==> exists i :: 0 <= i < |nodes| && nodes[i].active && nodes[i].ip == ip && nodes[i].port == port
    {
      var c := head;
      ghost var k := 0;
      while c != null
        invariant 0 <= k <= |nodes| && c == (if k < |nodes| then nodes[k] else null)
        invariant forall i :: 0 <= i < k ==> !(nodes[i].active && nodes[i].ip == ip && nodes[i].port == port)
        decreases |nodes| - k
      {
        if c.active && c.port == port && c.ip == ip {
          return true;
        }
        assert nodes[k].next == c.next;
        c := c.next;
        k := k + 1;
      }
      return false;
    }

    /** remove_node_locked, for a node and its predecessor. */
    method RemoveNode(prev: PeerConn?, cur: PeerConn, ghost k: nat)
      requires Valid() && k < |nodes| && nodes[k] == cur
      requires prev == if k == 0 then null else nodes[k - 1]
      modifies this, nodes`next
      ensures Valid() && nodes == Remove(old(nodes), cur) && freed == old(freed) + [cur]
      ensures nodes == old(nodes)[..k] + old(nodes)[k + 1..]
    {
      RemoveAt(nodes, k);
      RemoveMembers(nodes, cur);
      if prev != null {
        prev.next := cur.next;
      } else {
        head := cur.next;
      }
      nodes := nodes[..k] + nodes[k + 1..];
      freed := freed + [cur];
    }

    /** The rescan of the reaper and of cmd_terminate: find cur from the head, and remove it if found. */
    method RescanAndRemove(cur: PeerConn)
      requires Valid()
      modifies this, nodes`next
      ensures Valid() && nodes == Remove(old(nodes), cur)
      ensures freed == if cur in old(nodes) then old(freed) + [cur] else old(freed)
      ensures forall k :: 0 <= k < |old(nodes)| && old(nodes)[k] == cur ==> nodes == old(nodes)[..k] + old(nodes)[k + 1..]
    {
      var scan, scan_prev: PeerConn? := head, null;
      ghost var k := 0;
      while scan != null && scan != cur
        invariant 0 <= k <= |nodes| && scan == (if k < |nodes| then nodes[k] else null)
        invariant scan_prev == if k == 0 then null else nodes[k - 1]
        invariant cur !in nodes[..k]
        decreases |nodes| - k
      {
        assert nodes[k].next == scan.next;
        scan_prev := scan;
        scan := scan.next;
        k := k + 1;
      }
      if scan == cur {
        RemoveNode(scan_prev, cur, k);
      } else {
        RemoveAbsent(nodes, cur);
      }
    }

    /** conn_head = p->next. */
    method UnlinkHead(p: PeerConn)
      requires Valid() && head == p
      modifies this`head, this`nodes
      ensures Valid() && nodes == Remove(old(nodes), p)
    {
      RemoveMembers(nodes, p);
      assert nodes[0].next == p.next;
      head := p.next;
      nodes := nodes[1..];
      assert forall i :: 0 <= i < |nodes| ==> nodes[i] == old(nodes)[i + 1];
    }

    /** cur->next = p->next. */
    method UnlinkAfter(cur: PeerConn, p: PeerConn, ghost k: nat)
      requires Valid() && k < |nodes| && nodes[k] == cur && cur.next == p
      modifies this`nodes, cur`next
      ensures Valid() && nodes == Remove(old(nodes), p)
    {
      assert nodes[k].next == p;
      assert nodes[k + 1] == p && nodes[k + 1].next == p.next;
      RemoveAt(nodes, k + 1);
      RemoveMembers(nodes, p);
      cur.next := p.next;
      nodes := nodes[..k + 1] + nodes[k + 2..];
      assert forall i :: 0 <= i < |nodes| ==> nodes[i] == old(nodes)[if i <= k then i else i + 1];
    }

    /** The rollback of cmd_connect and of the listener, written as a second kind of walk. */
    method Rollback(p: PeerConn)
      requires Valid()
      modifies this, nodes`next
      ensures Valid() && nodes == Remove(old(nodes), p) && freed == old(freed) + [p]
    {
      if head == p {
        UnlinkHead(p);
      } else {
        var cur := head;
        ghost var k := 0;
        while cur != null && cur.next != p
          invariant 0 <= k <= |nodes| && cur == (if k < |nodes| then nodes[k] else null)
          invariant p !in nodes[..k] && (k < |nodes| ==> nodes[k] != p)
          decreases |nodes| - k
        {
          assert nodes[k].next == cur.next;
          cur := cur.next;
          k := k + 1;
        }
        if cur != null {
          UnlinkAfter(cur, p, k);
        } else {
          RemoveAbsent(nodes, p);
        }
      }
      freed := freed + [p];
    }

    /** One removal of the reaper, from line 186 to line 210. */
    method ReapOne(cur: PeerConn, ghost k: nat)
      requires Valid() && k < |nodes| && nodes[k] == cur && cur.should_remove
      requires forall i :: 0 <= i < k ==> !nodes[i].should_remove
      modifies this, nodes`next
      ensures Valid() && |nodes| == |old(nodes)| - 1
      ensures forall i :: 0 <= i < |nodes| ==> nodes[i] in old(nodes)
      ensures Select(nodes, false) == old(Select(nodes, false))
      ensures freed == old(freed) + [cur] && [cur] + Select(nodes, true) == old(Select(nodes, true))
    {
      SelectDrop(nodes, k, false);
      SelectFirst(nodes, k);
      RescanAndRemove(cur);
      assert nodes == old(nodes)[..k] + old(nodes)[k + 1..];
    }

    /**
      reap_connections with nobody else running. It starts again from the head after every removal;
      it ends with exactly the unflagged nodes, in their order, and has freed each flagged one once.
    */
    method Reap()
      requires Valid()
      modifies this, nodes`next
      ensures Valid()
      ensures nodes == old(Select(nodes, false))
      ensures freed == old(freed) + old(Select(nodes, true))
    {
      var prev: PeerConn?, cur := null, head;
      ghost var k := 0;
      ghost var unflagged, flagged := Select(nodes, false), Select(nodes, true);
      ghost var reaped: seq<PeerConn> := [];
      while cur != null
        invariant Valid() && (forall i :: 0 <= i < |nodes| ==> nodes[i] in old(nodes))
        invariant 0 <= k <= |nodes| && cur == (if k < |nodes| then nodes[k] else null)
        invariant forall i :: 0 <= i < k ==> !nodes[i].should_remove
        invariant Select(nodes, false) == unflagged
        invariant freed == old(freed) + reaped && reaped + Select(nodes, true) == flagged
        decreases |nodes|, |nodes| - k
      {
        if cur.should_remove {
          ReapOne(cur, k);
          Regroup(reaped, cur, Select(nodes, true));
          reaped := reaped + [cur];
          prev := null;
          cur := head;
          k := 0;
        } else {
          assert nodes[k].next == cur.next;
          prev := cur;
          cur := cur.next;
          k := k + 1;
        }
      }
      SelectAll(nodes, false);
      assert reaped + [] == reaped;
    }

    /** cmd_terminate with nobody else running: only the node with that id goes. */
    method Terminate(id: int) returns (found: bool)
      requires Valid()
      modifies this, nodes`next, nodes`active
      ensures Valid()
      ensures found <==> exists i :: 0 <= i < |old(nodes)| && old(nodes)[i].id == id
      ensures !found ==> nodes == old(nodes) && freed == old(freed)
                         && forall x :: x in old(nodes) ==> x.active == old(x.active)
      ensures found ==> exists p :: p in old(nodes) && p.id == id && !p.active
                                 && nodes == Remove(old(nodes), p) && freed == old(freed) + [p]
                                 && forall x :: x in old(nodes) && x != p ==> x.active == old(x.active)
    {
      var cur := FindById(id);
      if cur == null {
        return false;
      }
      cur.active := false;
      RescanAndRemove(cur);
      return true;
    }

    /** The first loop of cmd_exit: no listed connection is active, and the list is as it was. */
    method DeactivateAll()
      requires Valid()
      modifies nodes`active
      ensures Valid() && forall i :: 0 <= i < |nodes| ==> !nodes[i].active
    {
      var cur := head;
      ghost var k := 0;
      while cur != null
        invariant Valid() && 0 <= k <= |nodes| && cur == (if k < |nodes| then nodes[k] else null)
        invariant forall i :: 0 <= i < k ==> !nodes[i].active
        decreases |nodes| - k
      {
        if cur.active {
          cur.active := false;
        }
        assert nodes[k].next == cur.next;
        cur := cur.next;
        k := k + 1;
      }
    }

    /** The last loop of cmd_exit: every node is freed, front first, and the list is empty. */
    method FreeAll()
      requires Valid()
      modifies this
      ensures Valid() && nodes == [] && freed == old(freed) + old(nodes)
    {
      var cur := head;
      ghost var k := 0;
      while cur != null
        invariant unchanged(`nodes) && unchanged(`head) && Valid()
        invariant 0 <= k <= |nodes| && cur == (if k < |nodes| then nodes[k] else null)
        invariant freed == old(freed) + nodes[..k]
        decreases |nodes| - k
      {
        var tmp := cur;
        assert nodes[k].next == cur.next;
        cur := cur.next;
        freed := freed + [tmp];
        assert nodes[..k + 1] == nodes[..k] + [tmp];
        k := k + 1;
      }
      head := null;
      nodes := [];
    }
  }
}
