/** The intrusive singly linked list of link_list.h, proved to be a sequence of nodes. */
module LinkList {

  /** A node, and for history the block of memory it was carved from and its place there. */
  class ListNode {
    var next: ListNode?
    ghost const block: nat
    ghost const index: nat

    constructor (ghost block: nat, ghost index: nat)
      ensures next == null && this.block == block && this.index == index
    {
      next := null;
      this.block, this.index := block, index;
    }
  }

  /** Following the links from the first of these nodes meets all of them, and then the end. */
  ghost predicate Follows(spine: seq<ListNode>)
    reads spine
  {
    && (spine != [] ==> spine[|spine| - 1].next == null)
    && (forall i, j {:trigger spine[i].next, spine[j]} :: 0 <= i && i + 1 == j < |spine| ==> spine[i].next == spine[j])
  }

  /** The links alone determine the sequence: no other one starts with the same node. */
  lemma {:induction false} OneSpine(s: seq<ListNode>, t: seq<ListNode>)
    requires Follows(s) && Follows(t) && s != [] && t != [] && s[0] == t[0]
    ensures s == t
  {
    assert |s| > 1 ==> s[0].next == s[1];
    assert |t| > 1 ==> t[0].next == t[1];
    if |s| > 1 && |t| > 1 {
      OneSpine(s[1..], t[1..]);
      assert s == [s[0]] + s[1..] && t == [t[0]] + t[1..];
    }
  }

  /** In a list only the last node has no successor. */
  lemma LastInChain(spine: seq<ListNode>, n: ListNode)
    requires Follows(spine) && n.next == null && forall i, j :: 0 <= i < j < |spine| ==> spine[i] != spine[j]
    ensures n in spine <==> spine != [] && n == spine[|spine| - 1]
  {
    forall i | 0 <= i < |spine| - 1 ensures spine[i] != n {
      assert spine[i].next == spine[i + 1];
    }
  }

  class LinkList {
    var size: int
    var head: ListNode?
    var tail: ListNode?
    ghost var spine: seq<ListNode>

    /** The fields and the links say what `spine` says. */
    ghost predicate Valid()
      reads this, spine
    {
      && size == |spine|
      && (spine == [] ==> head == null && tail == null)
      && (spine != [] ==> head == spine[0] && tail == spine[|spine| - 1])
      && Follows(spine)
      && (forall i, j :: 0 <= i < j < |spine| ==> spine[i] != spine[j])
    }

    constructor ()
      ensures Valid() && spine == []
    {
      size, head, tail, spine := 0, null, null, [];
    }

    /** Forgets the nodes, leaving their links as they are. */
    method Clear()
      modifies this
      ensures Valid() && spine == []
    {
      size, head, tail, spine := 0, null, null, [];
    }

    /**
    Appends a node that is in no list; one that is followed by another is silently dropped. The test cannot tell the
    last node of this very list from a free one: that node is then linked to itself.
    */
    method PushBack(n: ListNode)
      requires Valid()
      modifies this, n, tail
      ensures Valid() <==> old(n.next) != null || n !in old(spine)
      ensures Valid() ==> spine == old(spine) + (if old(n.next) == null then [n] else []) && n.next == old(n.next)
      ensures !Valid() ==> n == old(tail) && n.next == n
    {
      if n.next != null {
        return;
      }
      LastInChain(spine, n);
      n.next := null;
      if size == 0 {
        head, tail := n, n;
      } else {
        tail.next := n;
        tail := n;
      }
      spine := spine + [n];
      size := size + 1;
      assert n in old(spine) ==> spine[|spine| - 2] == spine[|spine| - 1];
    }

    /** Prepends a node likewise; the last node of this very list closes a cycle. */
    method PushFront(n: ListNode)
      requires Valid()
      modifies this, n
      ensures Valid() <==> old(n.next) != null || n !in old(spine)
      ensures Valid() ==> spine == (if old(n.next) == null then [n] else []) + old(spine)
      ensures !Valid() ==> n == old(tail) && n.next == old(head)
    {
      if n.next != null {
        return;
      }
      LastInChain(spine, n);
      n.next := null;
      if size == 0 {
        head, tail := n, n;
      } else {
        n.next := head;
        head := n;
      }
      spine := [n] + spine;
      size := size + 1;
      assert n in old(spine) ==> spine[0] == spine[|spine| - 1];
    }

    /** Takes the first node out and clears its link, so that it can be pushed again. */
    method Pop() returns (ret: ListNode?)
      requires Valid()
      modifies this, head
      ensures Valid()
      ensures if old(spine) == [] then ret == null && spine == []
              else ret == old(spine)[0] && spine == old(spine)[1..] && ret.next == null
      ensures forall n :: n in spine ==> n.next == old(n.next)
    {
      if size == 0 {
        return null;
      }
      ret := head;
      head := head.next;
      if head == null {
        tail := null;
      }
      size := size - 1;
      ret.next := null;
      spine := spine[1..];
    }

    /** Moves all nodes of another list to the end of this one; swapped with itself, a list loses them all. */
    method Swap(from: LinkList)
      requires Valid() && from.Valid()
      requires this == from || forall n :: n in spine ==> n !in from.spine
      modifies this, from, tail
      ensures Valid() && from.Valid()
      ensures from.spine == [] && (this != from ==> spine == old(spine) + old(from.spine))
    {
      ghost var s, t := spine, from.spine;
      if from.head != null && from.tail != null {
        forall i, j | 0 <= i < |s| && 0 <= j < |t| && this != from ensures s[i] != t[j] {
          assert s[i] in s && t[j] in t;
        }
        if tail != null {
          tail.next := from.head;
        } else {
          head := from.head;
        }
        tail := from.tail;
        from.head, from.tail := null, null;
        size := size + from.size;
        from.size := 0;
        spine := s + t;
        assert forall i :: |s| <= i < |spine| ==> spine[i] == t[i - |s|];
        from.spine := [];
      }
    }
  }

  /** A node popped from one list can be pushed to another, as an object goes from its batch to a caller and back. */
  method HandOver(from: LinkList, to: LinkList)
    requires from.Valid() && to.Valid() && from != to && from.spine != []
    requires forall n :: n in from.spine ==> n !in to.spine
    modifies from, to, from.head, to.tail
    ensures from.Valid() && to.Valid()
    ensures to.spine == old(to.spine) + [old(from.spine)[0]] && from.spine == old(from.spine)[1..]
  {
    assert from.spine[0] !in to.spine;
    var n := from.Pop();
    forall i | 0 <= i < |from.spine| ensures from.spine[i] != n && from.spine[i] !in to.spine {
      assert from.spine[i] == old(from.spine)[i + 1] && old(from.spine)[i + 1] in old(from.spine);
    }
    to.PushBack(n);
  }
}
