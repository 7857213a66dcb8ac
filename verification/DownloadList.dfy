/** The linked list of ActiveDownload nodes, as pointers: what find, add and remove do to it. */
module DownloadLists {
  import opened Prelude
  import CacheState

  class ActiveDownload {
    const offset: int
    var refcount: int
    var unlinked: bool
    var next: ActiveDownload?

    constructor (offset: int, next: ActiveDownload?)
      ensures this.offset == offset && refcount == 1 && !unlinked && this.next == next
    {
      this.offset, this.next := offset, next;
      refcount, unlinked := 1, false;
    }

    /** ActiveDownload_unref; true for the last reference. */
    method Unref() returns (freed: bool)
      modifies this`refcount
      ensures refcount == old(refcount) - 1 && (freed <==> refcount == 0)
    {
      refcount := refcount - 1;
      freed := refcount == 0;
    }
  }

  /** The node at position `k`, or null past the end. */
  ghost function NodeAt(nodes: seq<ActiveDownload>, k: nat): ActiveDownload? {
    if k < |nodes| then nodes[k] else null
  }

  /** Each node points at the next one. */
  ghost predicate Linked(nodes: seq<ActiveDownload>)
    reads nodes`next
  {
    forall k: nat :: k < |nodes| ==> nodes[k].next == NodeAt(nodes, k + 1)
  }

  ghost predicate NoneUnlinked(nodes: seq<ActiveDownload>)
    reads nodes`unlinked
  {
    forall n :: n in nodes ==> !n.unlinked
  }

  /** Position of the first node with this offset, or the length of the list. */
  ghost function FirstAt(nodes: seq<ActiveDownload>, offset: int): (k: nat)
    ensures k <= |nodes|
    ensures k < |nodes| ==> nodes[k].offset == offset
    ensures forall i :: 0 <= i < k ==> nodes[i].offset != offset
  {
    if nodes == [] || nodes[0].offset == offset then 0 else 1 + FirstAt(nodes[1..], offset)
  }

  lemma {:induction false} FirstIs(nodes: seq<ActiveDownload>, offset: int, i: nat)
    requires i <= |nodes| && (forall j :: 0 <= j < i ==> nodes[j].offset != offset)
    requires i < |nodes| ==> nodes[i].offset == offset
    ensures FirstAt(nodes, offset) == i
  {
  }

  class DownloadList {
    var head: ActiveDownload?
    /** The linked nodes, in order. */
    ghost var nodes: seq<ActiveDownload>

    ghost predicate Valid()
      reads this, nodes
    {
      head == NodeAt(nodes, 0) && Linked(nodes) && NoRepeats(nodes) && NoneUnlinked(nodes)
    }

    constructor ()
      ensures Valid() && nodes == []
    {
      head, nodes := null, [];
    }

    /** ActiveDownload_find */
    method Find(offset: int) returns (ad: ActiveDownload?)
      requires Valid()
      ensures var k := FirstAt(nodes, offset); ad == if k < |nodes| then nodes[k] else null
    {
      ghost var i: nat := 0;
      ad := head;
      while ad != null
        invariant i <= |nodes| && ad == NodeAt(nodes, i)
        invariant forall j :: 0 <= j < i ==> nodes[j].offset != offset
        decreases |nodes| - i
      {
        if ad.offset == offset {
          FirstIs(nodes, offset, i);
          return;
        }
        ad := ad.next;
        i := i + 1;
      }
      FirstIs(nodes, offset, i);
    }

    /** ActiveDownload_add: the new node comes first, with one reference. */
    method Add(offset: int)
      requires Valid()
      modifies this
      ensures Valid() && nodes != [] && fresh(nodes[0]) && nodes[1..] == old(nodes)
      ensures nodes[0].offset == offset && nodes[0].refcount == 1
    {
      var ad := new ActiveDownload(offset, head);
      head := ad;
      nodes := [ad] + nodes;
      assert nodes[1..] == old(nodes);
      assert forall k: nat :: 0 < k < |nodes| ==> nodes[k] == old(nodes)[k - 1];
    }

    /** The search of ActiveDownload_remove, which remembers the pointer to rewrite. */
    method Seek(offset: int) returns (prev: ActiveDownload?, ad: ActiveDownload?)
      requires Valid()
      ensures var k := FirstAt(nodes, offset); ad == NodeAt(nodes, k) && prev == if k > 0 then nodes[k - 1] else null
    {
      prev, ad := null, head;
      ghost var i: nat := 0;
      while ad != null && ad.offset != offset
        invariant i <= |nodes| && ad == NodeAt(nodes, i)
        invariant prev == if i > 0 then nodes[i - 1] else null
        invariant forall j :: 0 <= j < i ==> nodes[j].offset != offset
        decreases |nodes| - i
      {
        prev, ad := ad, ad.next;
        i := i + 1;
      }
      FirstIs(nodes, offset, i);
    }

    /** Rewrite the pointer that leads to node `i` and take the node out of the list. */
    method Unlink(prev: ActiveDownload?, ad: ActiveDownload, ghost i: nat)
      requires Valid() && i < |nodes| && ad == nodes[i] && prev == if i > 0 then nodes[i - 1] else null
      modifies this, (if prev == null then {} else {prev})`next
      ensures Valid() && nodes == Without(old(nodes), i)
    {
      ghost var was := nodes;
      WithoutKeeps(was, i);
      hide Without, NoRepeats, NodeAt, NoneUnlinked;
      if prev == null {
        head := ad.next;
      } else {
        prev.next := ad.next;
      }
      nodes := Without(was, i);
      forall k: nat | k < |was|
        ensures was[k].next == NodeAt(was, if k + 1 == i then i + 1 else k + 1)
      {
      }
      Relinked(was, i);
    }

    /** ActiveDownload_remove: unlink the first node of the block, through a pointer to the pointer that
        leads to it, and drop the list's reference. `freed` tells whether that was the last one. */
    method Remove(offset: int) returns (ad: ActiveDownload?, freed: bool)
      requires Valid()
      modifies this, nodes
      ensures Valid()
      ensures var k := FirstAt(old(nodes), offset);
              if k == |old(nodes)| then ad == null && !freed && nodes == old(nodes)
              else && ad == old(nodes)[k] && nodes == old(nodes)[..k] + old(nodes)[k + 1..]
                   && ad.unlinked && ad.refcount == old(ad.refcount) - 1 && (freed <==> ad.refcount == 0)
      ensures forall n :: n in old(nodes) && n != ad ==> n.refcount == old(n.refcount) && n.unlinked == old(n.unlinked)
    {
      hide Linked, NoRepeats, NoneUnlinked, Without;
      var prev;
      prev, ad := Seek(offset);
      if ad == null {
        return null, false;
      }
      ghost var k := FirstAt(nodes, offset);
      OutOfList(nodes, k);
      assert nodes[k] == ad;
      hide NodeAt, FirstAt;
      Unlink(prev, ad, k);
      ad.unlinked := true;
      freed := ad.Unref();
    }
  }

  /** The list is linked again once the pointer to node `i` leads past it. */
  lemma Relinked(was: seq<ActiveDownload>, i: nat)
    requires i < |was| && NoneUnlinked(was)
    requires forall k: nat :: k < |was| ==> was[k].next == NodeAt(was, if k + 1 == i then i + 1 else k + 1)
    ensures Linked(Without(was, i)) && NodeAt(Without(was, i), 0) == NodeAt(was, if i == 0 then 1 else 0)
    ensures NoneUnlinked(Without(was, i))
  {
    var nodes := Without(was, i);
    forall k: nat | k < |nodes|
      ensures nodes[k].next == NodeAt(nodes, k + 1)
    {
      assert nodes[k] == was[if k < i then k else k + 1];
    }
    forall n | n in nodes
      ensures !n.unlinked
    {
      var k :| 0 <= k < |nodes| && nodes[k] == n;
      assert was[if k < i then k else k + 1] == n;
    }
  }

  lemma WithoutKeeps(nodes: seq<ActiveDownload>, i: nat)
    requires i < |nodes| && NoRepeats(nodes)
    ensures NoRepeats(Without(nodes, i)) && forall n :: n in Without(nodes, i) ==> n in nodes
    ensures forall k: nat :: k < |nodes| && k + 1 != i ==> i > 0 ==> nodes[k] != nodes[i - 1]
  {
  }

  lemma OutOfList(nodes: seq<ActiveDownload>, i: nat)
    requires i < |nodes| && NoRepeats(nodes)
    ensures nodes[i] !in Without(nodes, i) && Without(nodes, i) == nodes[..i] + nodes[i + 1..]
  {
  }

  ghost function Without(nodes: seq<ActiveDownload>, i: nat): (r: seq<ActiveDownload>)
    requires i < |nodes|
    ensures |r| == |nodes| - 1
    ensures forall k: nat :: k < |r| ==> r[k] == nodes[if k < i then k else k + 1]
  {
    nodes[..i] + nodes[i + 1..]
  }

  /** The cache machine's search over tracker identities finds the same position. */
  lemma {:induction false} SameSearch(heap: map<CacheState.Aid, CacheState.Tracker>, list: seq<CacheState.Aid>,
                                      nodes: seq<ActiveDownload>, blksz: nat, b: nat)
    requires blksz > 0 && |nodes| == |list| && forall a :: a in list ==> a in heap
    requires forall k :: 0 <= k < |list| ==> nodes[k].offset == heap[list[k]].blk * blksz
    ensures var k := FirstAt(nodes, b * blksz);
            CacheState.FindIn(heap, list, b) == if k < |list| then Some(list[k]) else None
  {
    if list != [] {
      SameOffset(heap[list[0]].blk, b, blksz);
      assert list[0] in list;
      if heap[list[0]].blk != b {
        SameSearch(heap, list[1..], nodes[1..], blksz, b);
      }
    }
  }

  lemma SameOffset(a: nat, b: nat, blksz: nat)
    requires blksz > 0
    ensures a * blksz == b * blksz <==> a == b
  {
    if a < b {
      Grows(a, b, blksz);
    } else if b < a {
      Grows(b, a, blksz);
    }
  }
}
