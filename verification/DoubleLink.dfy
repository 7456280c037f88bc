/** The doubly linked list of double_link.h between two sentinels, proved to be a sequence of nodes. */
module DoubleLink {

  class DoubleLinkNode {
    var pre: DoubleLinkNode?
    var next: DoubleLinkNode?

    constructor ()
      ensures pre == null && next == null
    {
      pre, next := null, null;
    }
  }

  class DoubleLink {
    const head: DoubleLinkNode
    const tail: DoubleLinkNode
    /** The sentinels and what is between them. */
    ghost var chain: seq<DoubleLinkNode>

    /** Along the chain the links forward and backward are each other's inverse. */
    ghost predicate Valid()
      reads this, chain
    {
      && |chain| >= 2 && chain[0] == head && chain[|chain| - 1] == tail
      && head.pre == null && tail.next == null
      && Linked(chain)
    }

    static ghost predicate Linked(chain: seq<DoubleLinkNode>)
      reads chain
    {
      && (forall i, j :: 0 <= i < j < |chain| ==> chain[i] != chain[j])
      && (forall i, j :: 0 <= i && i + 1 == j < |chain| ==> chain[i].next == chain[j] && chain[j].pre == chain[i])
    }

    /** The members, from first to last. */
    ghost function Nodes(): seq<DoubleLinkNode>
      reads this, chain
      requires Valid()
    {
      chain[1..|chain| - 1]
    }

    /** A node that is in no list: what `push` accepts and `remove` refuses. */
    static ghost predicate Free(n: DoubleLinkNode)
      reads n
    {
      n.pre == null && n.next == null
    }

    /** `double_link_clear` on fresh sentinels. */
    constructor ()
      ensures Valid() && Nodes() == [] && fresh(chain)
    {
      var h := new DoubleLinkNode();
      var t := new DoubleLinkNode();
      head, tail, chain := h, t, [h, t];
      new;
      head.next := tail;
      tail.pre := head;
    }

    method Empty() returns (empty: bool)
      requires Valid()
      ensures empty <==> Nodes() == []
    {
      empty := head.next == tail;
      assert chain[0].next == chain[1];
    }

    method First() returns (n: DoubleLinkNode?)
      requires Valid()
      ensures n == if Nodes() == [] then null else Nodes()[0]
    {
      var empty := Empty();
      if empty {
        return null;
      }
      assert chain[0].next == chain[1];
      n := head.next;
    }

    method Last() returns (n: DoubleLinkNode?)
      requires Valid()
      ensures n == if Nodes() == [] then null else Nodes()[|Nodes()| - 1]
    {
      var empty := Empty();
      if empty {
        return null;
      }
      assert chain[|chain| - 1].pre == chain[|chain| - 2];
      n := tail.pre;
    }

    /** Appends a free node; a linked one is refused. */
    method Push(n: DoubleLinkNode) returns (ret: int)
      requires Valid()
      modifies this, chain, n
      ensures Valid()
      ensures ret == if old(Free(n)) then 0 else -1
      ensures Nodes() == old(Nodes()) + if ret == 0 then [n] else []
      ensures ret != 0 ==> chain == old(chain) && n.pre == old(n.pre) && n.next == old(n.next)
    {
      if n.pre != null || n.next != null {
        return -1;
      }
      forall k | 0 <= k < |chain| ensures chain[k] != n {
        LinkedIsNotFree(chain, k);
      }
      ghost var last := |chain| - 1;
      assert chain[last].pre == chain[last - 1];
      tail.pre.next := n;
      n.pre := tail.pre;
      tail.pre := n;
      n.next := tail;
      chain := chain[..last] + [n, tail];
      return 0;
    }

    /** No node of a chain, sentinels included, looks free: a list cannot take a node twice. */
    static lemma LinkedIsNotFree(c: seq<DoubleLinkNode>, k: nat)
      requires Linked(c) && k < |c| && |c| >= 2
      ensures !Free(c[k])
    {
      if k == 0 {
        assert c[0].next == c[1];
      } else {
        assert c[k].pre == c[k - 1];
      }
    }

    static function Without<T>(s: seq<T>, k: nat): (r: seq<T>)
      requires k < |s|
      ensures |r| == |s| - 1
      ensures forall i :: 0 <= i < |r| ==> r[i] == s[if i < k then i else i + 1]
    {
      s[..k] + s[k + 1..]
    }

    static lemma Neighbours(c: seq<DoubleLinkNode>, n: DoubleLinkNode) returns (k: nat)
      requires Linked(c) && |c| >= 2 && n in c[1..|c| - 1]
      ensures 1 <= k < |c| - 1 && c[k] == n && c[1..|c| - 1][k - 1] == n
      ensures n.pre == c[k - 1] && n.next == c[k + 1]
      ensures c[k - 1] != n && c[k + 1] != n && c[k - 1] != c[k + 1]
      ensures c[0] != n && c[0] != c[k + 1] && c[|c| - 1] != n && c[|c| - 1] != c[k - 1]
    {
      k :| 1 <= k < |c| - 1 && c[k] == n;
    }

    /** Taking a node out of the chain between the sentinels takes it out of the members. */
    static lemma WithoutMember<T>(c: seq<T>, k: nat)
      requires 1 <= k < |c| - 1
      ensures Without(c, k)[1..|c| - 2] == Without(c[1..|c| - 1], k - 1)
    {
    }

    /** Linking the neighbours of a node to each other leaves a chain without that node. */
    static lemma Bridged(c: seq<DoubleLinkNode>, k: nat)
      requires 1 <= k < |c| - 1
      requires forall i, j :: 0 <= i < j < |c| ==> c[i] != c[j]
      requires forall i, j :: 0 <= i && i + 1 == j < |c| && i != k && j != k ==> c[i].next == c[j] && c[j].pre == c[i]
      requires c[k - 1].next == c[k + 1] && c[k + 1].pre == c[k - 1]
      ensures Linked(Without(c, k))
    {
      hide Without;
      var r := Without(c, k);
      forall i, j | 0 <= i && i + 1 == j < |r| ensures r[i].next == r[j] && r[j].pre == r[i] {
        var x, y := if i < k then i else i + 1, if j < k then j else j + 1;
        assert r[i] == c[x] && r[j] == c[y];
      }
    }

    /** Takes a member out from wherever it is; a free node is refused. */
    method Remove(n: DoubleLinkNode) returns (ret: int, ghost place: nat)
      requires Valid() && (Free(n) || n in Nodes())
      modifies this, chain, n
      ensures Valid() && Free(n)
      ensures ret == if old(Free(n)) then -1 else 0
      ensures ret == 0 ==> place < |old(Nodes())| && old(Nodes())[place] == n
      ensures ret == 0 ==> Nodes() == Without(old(Nodes()), place)
      ensures ret != 0 ==> chain == old(chain)
    {
      hide Without;
      ghost var c := chain;
      ghost var k := 0;
      if n in Nodes() {
        k := Neighbours(c, n);
      }
      if n.pre == null || n.next == null {
        return -1, 0;
      }
      n.pre.next := n.next;
      n.next.pre := n.pre;
      n.pre, n.next := null, null;
      chain := Without(c, k);
      Bridged(c, k);
      WithoutMember(c, k);
      assert Valid();
      assert Nodes() == Without(old(Nodes()), k - 1);
      return 0, k - 1;
    }

    /** Takes the first member out. */
    method Pop() returns (n: DoubleLinkNode?)
      requires Valid()
      modifies this, chain
      ensures Valid()
      ensures if old(Nodes()) == [] then n == null && Nodes() == []
              else n == old(Nodes())[0] && Nodes() == old(Nodes())[1..] && Free(n)
    {
      n := First();
      if n != null {
        var _, place := Remove(n);
      }
    }
  }
}
