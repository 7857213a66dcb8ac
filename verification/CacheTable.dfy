/** The tracker list: what each list operation does to the ledger of references. */
module CacheTable {
  import opened Prelude
  import opened Blocks
  import opened CacheState
  import opened CacheInv

  lemma {:induction false} FindSpec(heap: map<Aid, Tracker>, list: seq<Aid>, b: nat)
    ensures var r := FindIn(heap, list, b);
            && (r.Some? ==> r.value in list && r.value in heap && heap[r.value].blk == b)
            && (r.None? ==> forall a :: a in list && a in heap ==> heap[a].blk != b)
  {
    if list == [] {
    } else {
      FindSpec(heap, list[1..], b);
      assert list == [list[0]] + list[1..];
    }
  }

  /** The tracker of a block, when the block is tracked. */
  lemma FoundIs(tb: Table, b: nat)
    ensures FindTracker(tb, b).Some? <==> Tracked(tb, b)
    ensures FindTracker(tb, b).Some? ==>
              var a := FindTracker(tb, b).value; a in tb.list && a in tb.heap && tb.heap[a].blk == b
  {
    FindSpec(tb.heap, tb.list, b);
  }

  lemma AddSpec(tb: Table, a: Aid, b: nat)
    requires ListOk(tb) && a !in tb.heap && !Tracked(tb, b)
    ensures ListOk(AddTracker(tb, a, b))
    ensures forall c :: Tracked(AddTracker(tb, a, b), c) <==> Tracked(tb, c) || c == b
  {
    var tb' := AddTracker(tb, a, b);
    assert a in tb'.list && tb'.list == [a] + tb.list;
    assert forall x :: x in tb'.list <==> x == a || x in tb.list;
    forall c
      ensures Tracked(tb', c) <==> Tracked(tb, c) || c == b
    {
      if c == b {
        assert tb'.heap[a].blk == b;
      } else if Tracked(tb, c) {
        var x :| x in tb.list && x in tb.heap && tb.heap[x].blk == c;
        assert x in tb'.list && tb'.heap[x].blk == c;
      }
    }
  }

  lemma RemoveSpec(tb: Table, b: nat)
    requires ListOk(tb) && Tracked(tb, b)
    ensures FindTracker(tb, b).Some?
    ensures var a := FindTracker(tb, b).value;
            var tb' := RemoveTracker(tb, b);
            && a in tb.list && a in tb.heap && tb.heap[a].blk == b
            && ListOk(tb')
            && (forall x :: x in tb'.list <==> x in tb.list && x != a)
            && (tb.heap[a].refs == 1 ==> tb'.heap == tb.heap - {a})
            && (tb.heap[a].refs != 1 ==> tb'.heap == tb.heap[a := tb.heap[a].(unlinked := true, refs := tb.heap[a].refs - 1)])
            && (forall c :: Tracked(tb', c) <==> Tracked(tb, c) && c != b)
  {
    hide FindTracker, RemoveTracker, Tracked, NoRepeats;
    FoundIs(tb, b);
    var a := FindTracker(tb, b).value;
    RemovesOne(tb, b, a);
    StaysOk(tb, RemoveTracker(tb, b), a);
    StillTracked(tb, RemoveTracker(tb, b), a, b);
  }

  lemma RemovesOne(tb: Table, b: nat, a: Aid)
    requires NoRepeats(tb.list) && FindTracker(tb, b) == Some(a) && a in tb.list && a in tb.heap
    ensures var tb' := RemoveTracker(tb, b);
            && NoRepeats(tb'.list)
            && (forall x :: x in tb'.list <==> x in tb.list && x != a)
            && (tb.heap[a].refs == 1 ==> tb'.heap == tb.heap - {a})
            && (tb.heap[a].refs != 1 ==> tb'.heap == tb.heap[a := tb.heap[a].(unlinked := true, refs := tb.heap[a].refs - 1)])
  {
    RemoveFirstIs(tb.list, a);
    hide FindTracker, RemoveFirst, NoRepeats;
  }

  lemma StaysOk(tb: Table, tb': Table, a: Aid)
    requires ListOk(tb) && a in tb.heap && NoRepeats(tb'.list) && forall x :: x in tb'.list <==> x in tb.list && x != a
    requires forall x :: x in tb.heap && x != a ==> x in tb'.heap && tb'.heap[x] == tb.heap[x]
    requires forall x :: x in tb'.heap ==> x in tb.heap && (x == a ==> tb'.heap[x].unlinked)
    ensures ListOk(tb')
  {
    hide NoRepeats;
  }

  /** Every other block of the list is tracked by the same tracker as before. */
  lemma StillTracked(tb: Table, tb': Table, a: Aid, b: nat)
    requires ListOk(tb) && a in tb.list && tb.heap[a].blk == b
    requires forall x :: x in tb'.list <==> x in tb.list && x != a
    requires forall x :: x in tb.heap && x != a ==> x in tb'.heap && tb'.heap[x].blk == tb.heap[x].blk
    ensures forall c :: Tracked(tb', c) <==> Tracked(tb, c) && c != b
  {
    forall c
      ensures Tracked(tb', c) <==> Tracked(tb, c) && c != b
    {
      if Tracked(tb, c) && c != b {
        var x :| x in tb.list && x in tb.heap && tb.heap[x].blk == c;
        assert x in tb'.list && x in tb'.heap && tb'.heap[x].blk == c;
      }
    }
  }

  /** Changing references and transfer pointers of trackers leaves the list as it is. */
  lemma SameList(tb: Table, tb': Table)
    requires ListOk(tb) && tb'.list == tb.list
    requires forall a :: a in tb.list ==> a in tb'.heap && tb'.heap[a].blk == tb.heap[a].blk
    requires forall a :: a in tb'.heap ==> a in tb.heap && tb'.heap[a].unlinked == tb.heap[a].unlinked
    ensures ListOk(tb')
    ensures forall c :: Tracked(tb', c) <==> Tracked(tb, c)
  {
    forall c
      ensures Tracked(tb', c) <==> Tracked(tb, c)
    {
      if Tracked(tb, c) {
        var x :| x in tb.list && x in tb.heap && tb.heap[x].blk == c;
        assert x in tb'.list && x in tb'.heap && tb'.heap[x].blk == c;
      }
    }
  }
}
