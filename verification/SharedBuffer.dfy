/**
 The linked buffer (sbuffer.c) on the heap. Locks and barriers are in Gateway; these are the sections
 that run under a lock, and the loop that frees the buffer once all threads have been joined.
 */
module SharedBuffer {
  import opened Measurements

  class Node {
    var data: Measurement
    var next: Node?

    constructor (data: Measurement)
      ensures this.data == data && next == null
    {
      this.data := data;
      next := null;
    }
  }

  class SBuffer {
    var head: Node?
    var tail: Node?
    ghost var nodes: seq<Node>

    ghost function NodeAt(i: int): Node?
      reads this
    {
      if 0 <= i < |nodes| then nodes[i] else null
    }

    // The nodes hang together from head to tail, each once; head and tail are null together.
    ghost predicate Valid()
      reads this, nodes
    {
      && (forall i, j :: 0 <= i < j < |nodes| ==> nodes[i] != nodes[j])
      && head == NodeAt(0)
      && tail == NodeAt(|nodes| - 1)
      && (forall i {:trigger nodes[i].next} :: 0 <= i < |nodes| ==> nodes[i].next == NodeAt(i + 1))
    }

    ghost function Contents(): (s: seq<Measurement>)
      reads this, nodes
      ensures |s| == |nodes|
    {
      seq(|nodes|, i requires 0 <= i < |nodes| reads this, nodes => nodes[i].data)
    }

    // sbuffer_init
    constructor ()
      ensures Valid() && Contents() == [] && nodes == []
    {
      head := null;
      tail := null;
      nodes := [];
    }

    // sbuffer_get_data, lines 41-48: the head, which stays where it is; None is SBUFFER_NO_DATA.
    method GetData() returns (data: Option<Measurement>)
      requires Valid()
      ensures data == if Contents() == [] then None else Some(Contents()[0])
    {
      if head == null {
        return None;
      }
      data := Some(head.data);
    }

    // sbuffer_remove, lines 81-96: unlink the head.
    method Remove() returns (data: Option<Measurement>)
      requires Valid()
      modifies this
      ensures Valid()
      ensures old(Contents()) == [] ==> data == None && nodes == []
      ensures old(Contents()) != [] ==>
                && data == Some(old(Contents())[0])
                && nodes == old(nodes)[1..]
                && Contents() == old(Contents())[1..]
    {
      if head == null {
        return None;
      }
      data := Some(head.data);
      if head == tail {
        head := null;
        tail := null;
      } else {
        head := head.next;
      }
      nodes := nodes[1..];
    }

    // The links that a chain with one more node needs.
    lemma Appended(was: seq<Node>, contents: seq<Measurement>, n: Node)
      requires nodes == was + [n] && n !in was && n.next == null && tail == n
      requires forall i, j :: 0 <= i < j < |was| ==> was[i] != was[j]
      requires head == if was == [] then n else was[0]
      requires forall i {:trigger was[i].next} :: 0 <= i < |was| ==>
                 was[i].next == if i < |was| - 1 then was[i + 1] else n
      requires |contents| == |was| && forall i :: 0 <= i < |was| ==> was[i].data == contents[i]
      ensures Valid() && Contents() == contents + [n.data]
    {
    }

    // sbuffer_insert, lines 132-150: append behind the tail.
    method Insert(data: Measurement)
      requires Valid()
      modifies this, tail
      ensures Valid()
      ensures |nodes| == |old(nodes)| + 1 && nodes[..|nodes| - 1] == old(nodes) && fresh(nodes[|nodes| - 1])
      ensures Contents() == old(Contents()) + [data]
    {
      ghost var contents := Contents();
      var dummy := new Node(data);
      if tail == null {
        head := dummy;
        tail := dummy;
      } else {
        tail.next := dummy;
        tail := tail.next;
      }
      ghost var was := nodes;
      nodes := was + [dummy];
      Appended(was, contents, dummy);
    }

    // sbuffer_free: every node is freed, each once, in order, then the buffer, and the caller's pointer becomes
    // NULL; it fails when that already is NULL.
    static method Free(buffer: SBuffer?) returns (success: bool, r: SBuffer?, freed: seq<object>)
      requires buffer != null ==> buffer.Valid()
      modifies buffer
      ensures success == (buffer != null) && r == null
      ensures freed == if buffer == null then [] else old(buffer.nodes) + [buffer]
      ensures forall i, j :: 0 <= i < j < |freed| ==> freed[i] != freed[j]
      ensures buffer != null ==> buffer.head == null
    {
      success, r, freed := buffer != null, null, [];
      if buffer == null {
        return;
      }
      while buffer.head != null
        invariant buffer.nodes == old(buffer.nodes) && |freed| <= |buffer.nodes|
        invariant freed == buffer.nodes[..|freed|]
        invariant buffer.head == buffer.NodeAt(|freed|)
        invariant forall i {:trigger buffer.nodes[i].next} :: 0 <= i < |buffer.nodes| ==>
                    buffer.nodes[i].next == buffer.NodeAt(i + 1)
        decreases |buffer.nodes| - |freed|
      {
        var dummy := buffer.head;
        buffer.head := buffer.head.next;
        freed := freed + [dummy];
      }
      freed := freed + [buffer];
    }
  }
}
