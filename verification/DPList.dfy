/**
 The doubly linked list (lib/dplist.c) on the heap.

 A list keeps its nodes in a ghost sequence that Valid ties to the links, so each operation is an
 operation on sequences (ListSpec) and leaves a proper list behind. As in the program, list and
 reference arguments may be null.
 */
module DPList {
  import opened Measurements
  import opened ListSpec

  class Node<T> {
    var prev: Node?<T>
    var next: Node?<T>
    var element: Option<T>

    constructor (element: Option<T>)
      ensures this.element == element && prev == null && next == null
    {
      this.element := element;
      prev, next := null, null;
    }
  }

  ghost function At<T>(nodes: seq<Node<T>>, i: int): Node?<T> {
    if 0 <= i < |nodes| then nodes[i] else null
  }

  // Each node once, next and prev inverse to each other, nothing before the first or after the last.
  ghost predicate Chain<T>(nodes: seq<Node<T>>)
    reads nodes
  {
    && (forall i, j :: 0 <= i < j < |nodes| ==> nodes[i] != nodes[j])
    && (forall i {:trigger nodes[i].next} :: 0 <= i < |nodes| ==> nodes[i].next == At(nodes, i + 1))
    && (forall i {:trigger nodes[i].prev} :: 0 <= i < |nodes| ==> nodes[i].prev == At(nodes, i - 1))
  }

  // What freeing does, one call after the other: element_free on an element, free on an element pointer as
  // element_free has left it, free on a node and free on the list.
  datatype Release<T> =
    | Callback(element: Option<T>)
    | FreedElement(element: Option<T>)
    | FreedNode(node: Node<T>)
    | FreedList

  class List<!T> {
    const elementCopy: Option<T> -> Option<T>
    const elementFree: Option<T> -> Option<T> // what the callback leaves in the pointer
    const elementCompare: Compare<T>
    var head: Node?<T>
    ghost var nodes: seq<Node<T>>

    ghost predicate Valid()
      reads this, nodes
    {
      Chain(nodes) && head == At(nodes, 0)
    }

    ghost function Elements(): (s: seq<Option<T>>)
      reads this, nodes
      ensures |s| == |nodes|
    {
      seq(|nodes|, i requires 0 <= i < |nodes| reads this, nodes => nodes[i].element)
    }

    // dpl_create
    constructor (elementCopy: Option<T> -> Option<T>, elementFree: Option<T> -> Option<T>, elementCompare: Compare<T>)
      ensures Valid() && nodes == [] && Elements() == []
      ensures this.elementCopy == elementCopy && this.elementFree == elementFree
              && this.elementCompare == elementCompare
    {
      this.elementCopy := elementCopy;
      this.elementFree := elementFree;
      this.elementCompare := elementCompare;
      head := null;
      nodes := [];
    }

    // What insert_copy makes of an element; the callback is handed NULL too.
    function Stored(element: Option<T>, insertCopy: bool): Option<T> {
      if insertCopy then elementCopy(element) else element
    }
  }

  ghost predicate ValidOrNull<T>(list: List?<T>)
    reads list, if list == null then [] else list.nodes
  {
    list != null ==> list.Valid()
  }

  // ---------- Looking up ----------

  // dpl_size
  method Size<T>(list: List?<T>) returns (count: int)
    requires ValidOrNull(list)
    ensures count == if list == null then -1 else |list.nodes|
  {
    if list == null {
      return -1;
    }
    count := 0;
    var current := list.head;
    while current != null
      invariant 0 <= count <= |list.nodes|
      invariant current == At(list.nodes, count)
      decreases |list.nodes| - count
    {
      count := count + 1;
      current := current.next;
    }
  }

  // dpl_get_reference_at_index: any index finds a node, unless there is none.
  method ReferenceAtIndex<T>(list: List?<T>, index: int) returns (reference: Node?<T>)
    requires ValidOrNull(list)
    ensures reference ==
            if list == null || list.nodes == [] then null
            else list.nodes[NodePosition(index, |list.nodes|)]
  {
    if list == null || list.head == null {
      return null;
    }
    reference := list.head;
    var count := 0;
    while reference.next != null
      invariant 0 <= count < |list.nodes|
      invariant reference == list.nodes[count]
      invariant count <= 0 || count <= index
      decreases |list.nodes| - count
    {
      if count >= index {
        return;
      }
      reference := reference.next;
      count := count + 1;
    }
  }

  // dpl_get_element_at_index; None is also the NULL it returns when there is no node.
  method ElementAtIndex<T>(list: List?<T>, index: int) returns (element: Option<T>)
    requires ValidOrNull(list)
    ensures element ==
            if list == null || list.nodes == [] then None
            else list.Elements()[NodePosition(index, |list.nodes|)]
  {
    var current := ReferenceAtIndex(list, index);
    if current == null {
      return None;
    }
    element := current.element;
  }

  // dpl_get_index_of_element: the first match, or -1.
  method IndexOfElement<T>(list: List?<T>, element: Option<T>) returns (index: int)
    requires ValidOrNull(list)
    ensures list == null ==> index == -1
    ensures list != null ==> IsIndexOf(list.elementCompare, list.Elements(), element, index)
  {
    if list == null {
      return -1;
    }
    var current := list.head;
    index := 0;
    while current != null
      invariant 0 <= index <= |list.nodes|
      invariant current == At(list.nodes, index)
      invariant forall k :: 0 <= k < index ==> !Matches(list.elementCompare, list.Elements()[k], element)
      decreases |list.nodes| - index
    {
      if element == None && current.element == None {
        return;
      } else if current.element.Some? && element.Some? &&
                list.elementCompare(current.element.value, element.value) == 0 {
        return;
      }
      current := current.next;
      index := index + 1;
    }
    index := -1;
  }

  // Where a node is in a list; -1 if it is not. No node is in a list twice.
  ghost function Position<T>(nodes: seq<Node<T>>, reference: Node?<T>): (i: int)
    ensures -1 <= i < |nodes|
    ensures if i < 0 then reference == null || reference !in nodes else nodes[i] == reference
  {
    if reference != null && reference in nodes then
      var i :| 0 <= i < |nodes| && nodes[i] == reference;
      i
    else -1
  }

  // dpl_get_index_of_reference: where the node is in this list, or -1.
  method IndexOfReference<T>(list: List?<T>, reference: Node?<T>) returns (index: int)
    requires ValidOrNull(list)
    ensures index == if list == null then -1 else Position(list.nodes, reference)
  {
    if list == null || reference == null || list.head == null {
      return -1;
    }
    index := 0;
    var current := list.head;
    while current != null
      invariant 0 <= index <= |list.nodes|
      invariant current == At(list.nodes, index)
      invariant reference !in list.nodes[..index]
      decreases |list.nodes| - index
    {
      if current == reference {
        return;
      }
      current := current.next;
      index := index + 1;
    }
    assert list.nodes[..index] == list.nodes;
    index := -1;
  }

  // dpl_get_first_reference
  method FirstReference<T>(list: List?<T>) returns (reference: Node?<T>)
    requires ValidOrNull(list)
    ensures reference == if list == null then null else At(list.nodes, 0)
  {
    if list == null {
      return null;
    }
    reference := list.head;
  }

  // dpl_get_last_reference
  method LastReference<T>(list: List?<T>) returns (reference: Node?<T>)
    requires ValidOrNull(list)
    ensures reference == if list == null then null else At(list.nodes, |list.nodes| - 1)
  {
    if list == null || list.head == null {
      return null;
    }
    var size := Size(list);
    reference := ReferenceAtIndex(list, size - 1);
  }

  // The loop that dpl_get_next_reference, dpl_get_previous_reference and dpl_get_element_at_reference
  // share: is this node one of the list's?
  method Contains<T>(list: List?<T>, reference: Node?<T>) returns (found: bool)
    requires ValidOrNull(list)
    ensures found <==> list != null && reference != null && reference in list.nodes
  {
    var index := IndexOfReference(list, reference);
    found := index != -1;
  }

  // dpl_get_next_reference
  method NextReference<T>(list: List?<T>, reference: Node?<T>) returns (next: Node?<T>)
    requires ValidOrNull(list)
    ensures list == null || reference == null || reference !in list.nodes ==> next == null
    ensures list != null ==> forall i :: 0 <= i < |list.nodes| && list.nodes[i] == reference ==>
              next == At(list.nodes, i + 1)
  {
    var found := Contains(list, reference);
    next := if found then reference.next else null;
  }

  // dpl_get_previous_reference
  method PreviousReference<T>(list: List?<T>, reference: Node?<T>) returns (previous: Node?<T>)
    requires ValidOrNull(list)
    ensures list == null || reference == null || reference !in list.nodes ==> previous == null
    ensures list != null ==> forall i :: 0 <= i < |list.nodes| && list.nodes[i] == reference ==>
              previous == At(list.nodes, i - 1)
  {
    var found := Contains(list, reference);
    previous := if found then reference.prev else null;
  }

  // dpl_get_element_at_reference
  method ElementAtReference<T>(list: List?<T>, reference: Node?<T>) returns (element: Option<T>)
    requires ValidOrNull(list)
    ensures list == null || reference == null || reference !in list.nodes ==> element == None
    ensures list != null ==> forall i :: 0 <= i < |list.nodes| && list.nodes[i] == reference ==>
              element == list.Elements()[i]
  {
    var found := Contains(list, reference);
    element := if found then reference.element else None;
  }

  // dpl_get_reference_of_element: the first node that matches.
  method ReferenceOfElement<T>(list: List?<T>, element: Option<T>) returns (reference: Node?<T>)
    requires ValidOrNull(list)
    ensures list == null ==> reference == null
    ensures list != null ==> forall i :: IsIndexOf(list.elementCompare, list.Elements(), element, i) ==>
              reference == At(list.nodes, i)
  {
    if list == null || list.head == null {
      return null;
    }
    var index := IndexOfElement(list, element);
    forall i | IsIndexOf(list.elementCompare, list.Elements(), element, i) ensures i == index {
      IndexOfIsUnique(list.elementCompare, list.Elements(), element, i, index);
    }
    if index == -1 {
      return null;
    }
    reference := ReferenceAtIndex(list, index);
  }

  // ---------- Inserting ----------

  // The links that a new node at position p needs.
  lemma ChainInserted<T>(was: seq<Node<T>>, p: nat, n: Node<T>)
    requires p <= |was| && n !in was
    requires forall i, j :: 0 <= i < j < |was| ==> was[i] != was[j]
    requires n.next == At(was, p) && n.prev == At(was, p - 1)
    requires forall i {:trigger was[i].next} :: 0 <= i < |was| ==>
               was[i].next == if i == p - 1 then n else At(was, i + 1)
    requires forall i {:trigger was[i].prev} :: 0 <= i < |was| ==> was[i].prev == if i == p then n else At(was, i - 1)
    ensures Chain(was[..p] + [n] + was[p..])
  {
    var now := was[..p] + [n] + was[p..];
    forall i | 0 <= i < |now|
      ensures now[i].next == At(now, i + 1) && now[i].prev == At(now, i - 1)
    {
      assert now[i] == if i < p then was[i] else if i == p then n else was[i - 1];
    }
  }

  lemma ElementsInserted<T>(list: List<T>, was: seq<Node<T>>, elements: seq<Option<T>>, p: nat, n: Node<T>)
    requires p <= |was| == |elements| && list.nodes == was[..p] + [n] + was[p..]
    requires forall i :: 0 <= i < |was| ==> was[i].element == elements[i]
    ensures list.Elements() == elements[..p] + [n.element] + elements[p..]
  {
  }

  // dpl_insert_at_index, lines 77-105: link a new node in.
  method LinkAtIndex<T>(list: List<T>, listNode: Node<T>, index: int)
    requires list.Valid() && listNode !in list.nodes
    modifies list`head, list`nodes, listNode`prev, listNode`next
    modifies list.nodes`prev, list.nodes`next
    ensures list.Valid()
    ensures list.nodes == InsertAt(old(list.nodes), index, listNode)
  {
    ghost var was := list.nodes;
    ghost var p: int := InsertPosition(index, |was|);
    if list.head == null {
      listNode.prev := null;
      listNode.next := null;
      list.head := listNode;
    } else if index <= 0 {
      listNode.prev := null;
      listNode.next := list.head;
      list.head.prev := listNode;
      list.head := listNode;
    } else {
      var refAtIndex := ReferenceAtIndex(list, index);
      var size := Size(list);
      if index < size {
        assert refAtIndex == was[p] && refAtIndex.prev == was[p - 1];
        listNode.prev := refAtIndex.prev;
        listNode.next := refAtIndex;
        refAtIndex.prev.next := listNode;
        refAtIndex.prev := listNode;
      } else {
        assert refAtIndex == was[p - 1];
        listNode.next := null;
        listNode.prev := refAtIndex;
        refAtIndex.next := listNode;
      }
    }
    assert forall i {:trigger was[i].next} :: 0 <= i < |was| ==>
             was[i].next == if i == p - 1 then listNode else At(was, i + 1);
    assert forall i {:trigger was[i].prev} :: 0 <= i < |was| ==>
             was[i].prev == if i == p then listNode else At(was, i - 1);
    list.nodes := was[..p] + [listNode] + was[p..];
    ChainInserted(was, p, listNode);
  }

  // dpl_insert_at_index
  method InsertAtIndex<T>(list: List?<T>, element: Option<T>, index: int, insertCopy: bool) returns (r: List?<T>)
    requires ValidOrNull(list)
    modifies list, if list == null then [] else list.nodes
    ensures r == list
    ensures list != null ==>
              && list.Valid()
              && list.Elements() == InsertAt(old(list.Elements()), index, list.Stored(element, insertCopy))
              && var p := InsertPosition(index, |old(list.nodes)|);
                 && fresh(list.nodes[p]) && list.nodes == InsertAt(old(list.nodes), index, list.nodes[p])
                 && list.nodes[p].element == if insertCopy then list.elementCopy(element) else element
  {
    if list == null {
      return null;
    }
    ghost var was, elements := list.nodes, list.Elements();
    var listNode := new Node(list.Stored(element, insertCopy));
    LinkAtIndex(list, listNode, index);
    ElementsInserted(list, was, elements, InsertPosition(index, |was|), listNode);
    return list;
  }

  // dpl_insert_at_reference: before this node, if it is one of the list's.
  method InsertAtReference<T>(list: List?<T>, element: Option<T>, reference: Node?<T>, insertCopy: bool)
    returns (r: List?<T>)
    requires ValidOrNull(list)
    modifies list, if list == null then [] else list.nodes
    ensures r == if reference == null then null else list
    ensures list != null ==> list.Valid()
    ensures list != null ==>
              var i := Position(old(list.nodes), reference);
              if i < 0 then list.nodes == old(list.nodes) && list.Elements() == old(list.Elements())
              else
                && list.Elements() == InsertAt(old(list.Elements()), i, list.Stored(element, insertCopy))
                && fresh(list.nodes[i]) && list.nodes == InsertAt(old(list.nodes), i, list.nodes[i])
  {
    if list == null || reference == null {
      return null;
    }
    var index := IndexOfReference(list, reference);
    if index == -1 {
      return list;
    }
    r := InsertAtIndex(list, element, index, insertCopy);
  }

  // The list is sorted, the callback orders it, the element and what is stored of it, and a copy
  // compares as its original does.
  ghost predicate KeepsOrder<T>(compare: Compare<T>, s: seq<Option<T>>, element: Option<T>, stored: Option<T>) {
    && Sorted(compare, s)
    && Orders(compare, s + [element, stored])
    && AtMost(compare, element, stored) && AtMost(compare, stored, element)
  }

  // dpl_insert_sorted: before the first element that is not smaller.
  method InsertSorted<T>(list: List?<T>, element: Option<T>, insertCopy: bool) returns (r: List?<T>)
    requires ValidOrNull(list)
    requires list != null ==> Comparable(list.elementCompare, list.Elements(), element)
    modifies list, if list == null then [] else list.nodes
    ensures r == list
    ensures list != null ==> list.Valid()
    ensures list != null ==>
              exists p: nat :: IsSortedPosition(list.elementCompare, old(list.Elements()), element, p)
                          && list.Elements() == InsertAt(old(list.Elements()), p, list.Stored(element, insertCopy))
                          && fresh(list.nodes[p]) && list.nodes == InsertAt(old(list.nodes), p, list.nodes[p])
    ensures list != null ==>
              multiset(list.Elements()) == multiset(old(list.Elements())) + multiset{list.Stored(element, insertCopy)}
    ensures list != null
            && KeepsOrder(list.elementCompare, old(list.Elements()), element, list.Stored(element, insertCopy)) ==>
              Sorted(list.elementCompare, list.Elements())
  {
    if list == null {
      return null;
    }
    var index := 0;
    if element.Some? {
      var current := list.head;
      while current != null && Passes(list.elementCompare, element.value, current.element)
        invariant 0 <= index <= |list.nodes|
        invariant current == At(list.nodes, index)
        invariant forall k :: 0 <= k < index ==> Passes(list.elementCompare, element.value, list.Elements()[k])
        decreases |list.nodes| - index
      {
        index := index + 1;
        current := current.next;
      }
    }
    ghost var was := list.Elements();
    assert IsSortedPosition(list.elementCompare, was, element, index);
    if KeepsOrder(list.elementCompare, was, element, list.Stored(element, insertCopy)) {
      SortedInsert(list.elementCompare, was, element, list.Stored(element, insertCopy), index);
    }
    InsertMultiset(was, index, list.Stored(element, insertCopy));
    r := InsertAtIndex(list, element, index, insertCopy);
  }

  // ---------- Removing ----------

  // The links that remain when the node at position p goes.
  lemma ChainRemoved<T>(was: seq<Node<T>>, p: nat)
    requires p < |was|
    requires forall i, j :: 0 <= i < j < |was| ==> was[i] != was[j]
    requires forall i {:trigger was[i].next} :: 0 <= i < |was| && i != p ==>
               was[i].next == if i == p - 1 then At(was, p + 1) else At(was, i + 1)
    requires forall i {:trigger was[i].prev} :: 0 <= i < |was| && i != p ==>
               was[i].prev == if i == p + 1 then At(was, p - 1) else At(was, i - 1)
    ensures Chain(was[..p] + was[p + 1..])
  {
    var now := was[..p] + was[p + 1..];
    forall i | 0 <= i < |now|
      ensures now[i].next == At(now, i + 1) && now[i].prev == At(now, i - 1)
    {
      assert now[i] == if i < p then was[i] else was[i + 1];
    }
  }

  lemma ElementsRemoved<T>(list: List<T>, was: seq<Node<T>>, elements: seq<Option<T>>, p: nat)
    requires p < |was| == |elements| && list.nodes == was[..p] + was[p + 1..]
    requires forall i :: 0 <= i < |was| ==> was[i].element == elements[i]
    ensures list.Elements() == elements[..p] + elements[p + 1..]
  {
  }

  // dpl_remove_at_index, lines 118-143: unlink a node.
  method UnlinkAtIndex<T>(list: List<T>, index: int)
    requires list.Valid() && list.nodes != []
    modifies list`head, list`nodes, list.nodes`prev, list.nodes`next
    ensures list.Valid()
    ensures list.nodes == RemoveAt(old(list.nodes), index)
  {
    ghost var was := list.nodes;
    ghost var p: int := NodePosition(index, |was|);
    var listNode := list.head;
    var toDelete := ReferenceAtIndex(list, index);
    var size := Size(list);
    assert toDelete == was[p];
    if list.head.next == null {
      assert |was| == 1;
      list.head := null;
    } else if index <= 0 {
      assert list.head.next == was[1];
      list.head := listNode.next;
      listNode.next.prev := null;
    } else if index < size - 1 {
      assert toDelete.prev == was[p - 1] && toDelete.next == was[p + 1];
      toDelete.next.prev := toDelete.prev;
      toDelete.prev.next := toDelete.next;
    } else {
      assert toDelete.prev == was[p - 1];
      toDelete.prev.next := null;
    }
    assert forall i {:trigger was[i].next} :: 0 <= i < |was| && i != p ==>
             was[i].next == if i == p - 1 then At(was, p + 1) else At(was, i + 1);
    assert forall i {:trigger was[i].prev} :: 0 <= i < |was| && i != p ==>
             was[i].prev == if i == p + 1 then At(was, p - 1) else At(was, i - 1);
    list.nodes := was[..p] + was[p + 1..];
    ChainRemoved(was, p);
  }

  method UnlinkElement<T>(list: List<T>, index: int)
    requires list.Valid() && list.nodes != []
    modifies list`head, list`nodes, list.nodes`prev, list.nodes`next
    ensures list.Valid()
    ensures list.nodes == RemoveAt(old(list.nodes), index)
    ensures list.Elements() == RemoveAt(old(list.Elements()), index)
  {
    ghost var was, elements := list.nodes, list.Elements();
    UnlinkAtIndex(list, index);
    ElementsRemoved(list, was, elements, NodePosition(index, |was|));
  }

  // dpl_remove_at_index; the callback may be handed NULL.
  method RemoveAtIndex<T>(list: List?<T>, index: int, freeElement: bool)
    returns (r: List?<T>, released: seq<Release<T>>)
    requires ValidOrNull(list)
    modifies list, if list == null then [] else list.nodes
    ensures r == list
    ensures list != null ==>
              && list.Valid()
              && list.nodes == RemoveAt(old(list.nodes), index)
              && list.Elements() == RemoveAt(old(list.Elements()), index)
    ensures released ==
            if list == null || old(list.nodes) == [] then []
            else
              var p := NodePosition(index, |old(list.nodes)|);
              var e := old(list.Elements())[p];
              if freeElement then [Callback(e), FreedElement(list.elementFree(e)), FreedNode(old(list.nodes)[p])]
              else [FreedElement(e), FreedNode(old(list.nodes)[p])]
  {
    if list == null {
      return null, [];
    }
    if list.head == null {
      return list, [];
    }
    var toDelete := ReferenceAtIndex(list, index);
    released := FreeNode(list, toDelete, freeElement);
    UnlinkElement(list, index);
    r := list;
  }

  // dpl_remove_at_reference
  method RemoveAtReference<T>(list: List?<T>, reference: Node?<T>, freeElement: bool)
    returns (r: List?<T>, released: seq<Release<T>>)
    requires ValidOrNull(list)
    modifies list, if list == null then [] else list.nodes
    ensures list == null ==> r == null && released == []
    ensures list != null ==> list.Valid() && r == if old(list.nodes) != [] && reference == null then null else list
    ensures list != null ==>
              var i := Position(old(list.nodes), reference);
              if i < 0 then
                list.nodes == old(list.nodes) && list.Elements() == old(list.Elements()) && released == []
              else
                && list.nodes == RemoveAt(old(list.nodes), i) && list.Elements() == RemoveAt(old(list.Elements()), i)
                && var e := old(list.Elements())[i];
                   released ==
                   if freeElement then [Callback(e), FreedElement(list.elementFree(e)), FreedNode(old(list.nodes)[i])]
                   else [FreedElement(e), FreedNode(old(list.nodes)[i])]
  {
    if list == null {
      return null, [];
    }
    if list.head == null {
      return list, [];
    }
    if reference == null {
      return null, [];
    }
    var index := IndexOfReference(list, reference);
    if index == -1 {
      return list, [];
    }
    r, released := RemoveAtIndex(list, index, freeElement);
  }

  // dpl_remove_element: the first match goes.
  method RemoveElement<T>(list: List?<T>, element: Option<T>, freeElement: bool)
    returns (r: List?<T>, released: seq<Release<T>>)
    requires ValidOrNull(list)
    modifies list, if list == null then [] else list.nodes
    ensures r == list && (list == null ==> released == [])
    ensures list != null ==>
              && list.Valid()
              && forall i :: IsIndexOf(list.elementCompare, old(list.Elements()), element, i) ==>
                   if i == -1 then
                     list.nodes == old(list.nodes) && list.Elements() == old(list.Elements()) && released == []
                   else
                     && list.nodes == RemoveAt(old(list.nodes), i)
                     && list.Elements() == RemoveAt(old(list.Elements()), i)
                     && var e := old(list.Elements())[i];
                        released ==
                        if freeElement then
                          [Callback(e), FreedElement(list.elementFree(e)), FreedNode(old(list.nodes)[i])]
                        else [FreedElement(e), FreedNode(old(list.nodes)[i])]
  {
    if list == null {
      return null, [];
    }
    if list.head == null {
      return list, [];
    }
    var index := IndexOfElement(list, element);
    forall i | IsIndexOf(list.elementCompare, list.Elements(), element, i) ensures i == index {
      IndexOfIsUnique(list.elementCompare, list.Elements(), element, i, index);
    }
    if index == -1 {
      return list, [];
    }
    r, released := RemoveAtIndex(list, index, freeElement);
  }

  // What is done to one node: its own element is freed immediately before it, and before that, when asked for,
  // the callback gets the element, unless it is NULL.
  ghost predicate FreesOne<T>(elementFree: Option<T> -> Option<T>, node: Node<T>, e: Option<T>, freeElement: bool,
                              calls: seq<Release<T>>) {
    calls == if freeElement && e.Some? then [Callback(e), FreedElement(elementFree(e)), FreedNode(node)]
             else [FreedElement(e), FreedNode(node)]
  }

  // One group of calls after the other.
  ghost function Flat<X>(groups: seq<seq<X>>): seq<X> {
    if groups == [] then [] else Flat(groups[..|groups| - 1]) + groups[|groups| - 1]
  }

  // No node is freed twice, and none but these.
  ghost predicate FreedOnce<T>(nodes: seq<Node<T>>, released: seq<Release<T>>) {
    && (forall j :: 0 <= j < |released| && released[j].FreedNode? ==> released[j].node in nodes)
    && (forall j, k :: 0 <= j < k < |released| && released[j].FreedNode? ==> released[j] != released[k])
  }

  // dpl_free: every node of the chain is freed once, in order, each after its element, then the list, and
  // nothing else is done; the caller's pointer becomes NULL.
  method Free<T>(list: List?<T>, freeElement: bool)
    returns (r: List?<T>, released: seq<Release<T>>, ghost groups: seq<seq<Release<T>>>)
    requires ValidOrNull(list)
    modifies list
    ensures r == null
    ensures list == null ==> released == []
    ensures list != null ==>
              && released == Flat(groups) + [FreedList]
              && |groups| == |old(list.nodes)|
              && (forall i {:trigger groups[i]} :: 0 <= i < |groups| ==>
                    FreesOne(list.elementFree, old(list.nodes)[i], old(list.Elements())[i], freeElement, groups[i]))
              && FreedOnce(old(list.nodes), Flat(groups))
    ensures list != null ==> list.head == null
  {
    r, released, groups := null, [], [];
    if list == null {
      return;
    }
    ghost var nodes, elements := list.nodes, list.Elements();
    released, groups := FreeNodes(list, freeElement);
    EachOnce(list.elementFree, nodes, elements, freeElement, groups);
    released := released + [FreedList];
  }

  // Lines 49-58
  method FreeNodes<T>(list: List<T>, freeElement: bool)
    returns (released: seq<Release<T>>, ghost groups: seq<seq<Release<T>>>)
    requires list.Valid()
    modifies list`head
    ensures list.head == null && released == Flat(groups) && |groups| == |list.nodes|
    ensures forall i {:trigger groups[i]} :: 0 <= i < |groups| ==>
              FreesOne(list.elementFree, list.nodes[i], list.nodes[i].element, freeElement, groups[i])
  {
    released, groups := [], [];
    while list.head != null
      invariant |groups| <= |list.nodes| && list.head == At(list.nodes, |groups|)
      invariant released == Flat(groups)
      invariant forall i {:trigger groups[i]} :: 0 <= i < |groups| ==>
                  FreesOne(list.elementFree, list.nodes[i], list.nodes[i].element, freeElement, groups[i])
      invariant Chain(list.nodes)
      decreases |list.nodes| - |groups|
    {
      var temp := list.head;
      list.head := temp.next;
      var calls := FreeNode(list, temp, freeElement && temp.element.Some?);
      assert (groups + [calls])[..|groups|] == groups;
      released := released + calls;
      groups := groups + [calls];
    }
  }

  // Lines 53-57 and 145-150: a node goes, after its element.
  method FreeNode<T>(list: List<T>, node: Node<T>, callback: bool) returns (calls: seq<Release<T>>)
    ensures calls ==
            if callback then [Callback(node.element), FreedElement(list.elementFree(node.element)), FreedNode(node)]
            else [FreedElement(node.element), FreedNode(node)]
  {
    var element := node.element;
    calls := [];
    if callback {
      calls := [Callback(element)];
      element := list.elementFree(element);
    }
    calls := calls + [FreedElement(element), FreedNode(node)];
  }

  lemma {:induction false} EachOnce<T>(elementFree: Option<T> -> Option<T>, nodes: seq<Node<T>>,
                                       elements: seq<Option<T>>,
                                       freeElement: bool, groups: seq<seq<Release<T>>>)
    requires |groups| == |nodes| == |elements| && forall i, j :: 0 <= i < j < |nodes| ==> nodes[i] != nodes[j]
    requires forall i {:trigger groups[i]} :: 0 <= i < |groups| ==>
               FreesOne(elementFree, nodes[i], elements[i], freeElement, groups[i])
    ensures FreedOnce(nodes, Flat(groups))
  {
    if groups != [] {
      var k := |groups| - 1;
      EachOnce(elementFree, nodes[..k], elements[..k], freeElement, groups[..k]);
      OneMoreOnce(nodes, Flat(groups[..k]), groups[k], k);
      assert nodes[..k + 1] == nodes;
    }
  }

  lemma OneMoreOnce<T>(nodes: seq<Node<T>>, before: seq<Release<T>>, calls: seq<Release<T>>, k: nat)
    requires k < |nodes| && nodes[k] !in nodes[..k] && FreedOnce(nodes[..k], before)
    requires |calls| > 0 && calls[|calls| - 1] == FreedNode(nodes[k])
    requires forall j :: 0 <= j < |calls| - 1 ==> !calls[j].FreedNode?
    ensures FreedOnce(nodes[..k + 1], before + calls)
  {
    var all := before + calls;
    assert nodes[..k + 1][k] == nodes[k];
    assert forall n :: n in nodes[..k] ==> n in nodes[..k + 1];
    forall i, j | 0 <= i < j < |all| && all[i].FreedNode?
      ensures all[i] != all[j]
    {
      if i < |before| {
        assert before[i].node in nodes[..k];
      }
    }
  }

  // ---------- Operations together ----------

  method PutAt<T>(list: List<T>, element: Option<T>, index: int)
    requires list.Valid()
    modifies list, list.nodes
    ensures list.Valid()
    ensures RemoveAt(list.nodes, index) == old(list.nodes) && RemoveAt(list.Elements(), index) == old(list.Elements())
    ensures forall i :: 0 <= i < |list.nodes| ==> list.nodes[i] in old(list.nodes) || fresh(list.nodes[i])
  {
    ghost var nodes, elements, p := list.nodes, list.Elements(), InsertPosition(index, |list.nodes|);
    var l := InsertAtIndex(list, element, index, false);
    InsertThenRemove(nodes, index, list.nodes[p]);
    InsertThenRemove(elements, index, element);
  }

  // Inserting and removing at the same index, whatever it is, leaves the nodes and all their links as
  // they were.
  method InsertThenRemoveAt<T>(list: List<T>, element: Option<T>, index: int)
    requires list.Valid()
    modifies list, list.nodes
    ensures list.Valid()
    ensures list.nodes == old(list.nodes) && list.head == old(list.head)
    ensures list.Elements() == old(list.Elements())
    ensures forall i {:trigger list.nodes[i].next} :: 0 <= i < |list.nodes| ==>
              list.nodes[i].next == old(list.nodes[i].next)
    ensures forall i {:trigger list.nodes[i].prev} :: 0 <= i < |list.nodes| ==>
              list.nodes[i].prev == old(list.nodes[i].prev)
  {
    PutAt(list, element, index);
    var l, released := RemoveAtIndex(list, index, false);
  }

  // The reference found at an index is the one whose index that is.
  method ReferenceThenIndex<T>(list: List<T>, index: int) returns (reference: Node?<T>, found: int)
    requires list.Valid()
    ensures list.nodes == [] ==> reference == null && found == -1
    ensures list.nodes != [] ==> found == NodePosition(index, |list.nodes|) && reference == list.nodes[found]
  {
    reference := ReferenceAtIndex(list, index);
    found := IndexOfReference(list, reference);
  }

  method TakeAt<T>(list: List<T>, index: int) returns (element: Option<T>)
    requires list.Valid() && list.nodes != []
    modifies list, list.nodes
    ensures list.Valid()
    ensures element == old(list.Elements())[NodePosition(index, |old(list.nodes)|)]
    ensures list.nodes == RemoveAt(old(list.nodes), index) && list.Elements() == RemoveAt(old(list.Elements()), index)
    ensures forall n :: n in list.nodes ==> n in old(list.nodes)
  {
    element := ElementAtIndex(list, index);
    var l, released := RemoveAtIndex(list, index, false);
  }

  // Removing at any index and inserting what was there at the same index gives back the elements, with a
  // new node for that one and all others as they were.
  method RemoveThenInsertAt<T>(list: List<T>, index: int)
    requires list.Valid() && list.nodes != []
    modifies list, list.nodes
    ensures list.Valid() && list.Elements() == old(list.Elements())
    ensures var p := NodePosition(index, |old(list.nodes)|);
            fresh(list.nodes[p]) && list.nodes == old(list.nodes)[p := list.nodes[p]]
  {
    ghost var nodes, elements, p := list.nodes, list.Elements(), NodePosition(index, |list.nodes|);
    var element := TakeAt(list, index);
    RemoveThenInsert(elements, index, element);
    assert InsertPosition(index, |list.nodes|) == p;
    var l := InsertAtIndex(list, element, index, false);
    RemoveThenInsert(nodes, index, list.nodes[p]);
  }

  // Stepping to the next node and back, or to the previous one and forth, returns to the start where there
  // is one.
  method NeighboursAreInverse<T>(list: List<T>, reference: Node<T>)
    returns (next: Node?<T>, back: Node?<T>, previous: Node?<T>, forth: Node?<T>)
    requires list.Valid() && reference in list.nodes
    ensures next == null <==> reference == list.nodes[|list.nodes| - 1]
    ensures next != null ==> next in list.nodes && back == reference
    ensures previous == null <==> reference == list.nodes[0]
    ensures previous != null ==> previous in list.nodes && forth == reference
  {
    ghost var i :| 0 <= i < |list.nodes| && list.nodes[i] == reference;
    next := NextReference(list, reference);
    back := PreviousReference(list, next);
    previous := PreviousReference(list, reference);
    forth := NextReference(list, previous);
    assert next != null ==> list.nodes[i + 1] == next;
    assert previous != null ==> list.nodes[i - 1] == previous;
  }
}
