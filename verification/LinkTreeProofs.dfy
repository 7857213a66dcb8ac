/** The ledger of claims on directory tables, kept by every step; lookups agree with the full walk. */
module LinkTreeProofs {
  import opened Prelude
  import opened LinkTree

  function PinsOn(toks: map<Id, Token>, t: Tb): set<Id> {
    set k | k in toks && Pinned(toks[k]) == Some(t)
  }

  predicate ChildOf(x: Table, t: Tb) {
    x.parent.Some? && x.parent.value.tb == t
  }

  function Children(heap: map<Tb, Table>, t: Tb): set<Tb> {
    set c | c in heap && ChildOf(heap[c], t)
  }

  /** The ledger: one reference per claim and one per child table. */
  ghost predicate LedgerOk(heap: map<Tb, Table>, toks: map<Id, Token>) {
    forall t :: t in heap ==> heap[t].refs == |PinsOn(toks, t)| + |Children(heap, t)|
  }

  ghost predicate RootOk(r: Remote, heap: map<Tb, Table>) {
    ROOT in heap && heap[ROOT].parent.None? && !heap[ROOT].orphaned && heap[ROOT].url == r.rootUrl
  }

  /** A table that is not the root is the loaded table of exactly the link it names. */
  ghost predicate UpOk(r: Remote, heap: map<Tb, Table>, t: Tb)
    requires t in heap
  {
    t != ROOT ==>
      heap[t].parent.Some? &&
      var q, i := heap[t].parent.value.tb, heap[t].parent.value.i;
      q in heap && NextOf(heap, q, i) == Some(t) && heap[t].url == ChildUrl(r, heap, q, i)
  }

  ghost predicate DownOk(heap: map<Tb, Table>, t: Tb, i: nat) {
    NextOf(heap, t, i).Some? ==>
      NextOf(heap, t, i).value in heap && heap[NextOf(heap, t, i).value].parent == Some(Place(t, i))
  }

  ghost predicate Shape(r: Remote, heap: map<Tb, Table>) {
    && RootOk(r, heap)
    && (forall t :: t in heap ==> |heap[t].next| == |Entries(r, heap[t].url)|)
    && (forall t :: t in heap ==> UpOk(r, heap, t))
    && (forall t, i: nat :: DownOk(heap, t, i))
  }

  /** An unreferenced live table is not marked for eviction. */
  ghost predicate IdleOk(heap: map<Tb, Table>) {
    forall t :: t in heap ==> heap[t].refs == 0 ==> !heap[t].orphaned
  }

  ghost predicate LinkOk(r: Remote, heap: map<Tb, Table>, path: string, t: Tb, i: nat) {
    t in heap && i < |heap[t].next| && Lookup(r, path) == Some(Spot(heap[t].url, i))
  }

  /** A claim's table is live, and what the claim says about its path is what the full walk says. */
  ghost predicate TokOk(r: Remote, heap: map<Tb, Table>, tok: Token) {
    && (Pinned(tok).Some? ==> Pinned(tok).value in heap)
    && match tok
       case Looking(path, t, i, rest) => i < |heap[t].next| && Lookup(r, path) == Walk(r, ChildUrl(r, heap, t, i), rest)
       case Linked(path, t, i) => LinkOk(r, heap, path, t, i)
       case Opening(path, t, i) => LinkOk(r, heap, path, t, i)
       case OpenCache(path, t, i, n) => LinkOk(r, heap, path, t, i) && n > 0
       case DirHandle(t, slash) => slash <==> t == ROOT
       case Nothing(path) => Lookup(r, path).None?
       case _ => true
  }

  ghost predicate ToksOk(r: Remote, heap: map<Tb, Table>, toks: map<Id, Token>) {
    forall k :: k in toks ==> TokOk(r, heap, toks[k])
  }

  ghost predicate InvHeap(r: Remote, heap: map<Tb, Table>, toks: map<Id, Token>) {
    Shape(r, heap) && LedgerOk(heap, toks) && IdleOk(heap) && ToksOk(r, heap, toks)
  }

  ghost predicate TreeInv(r: Remote, s: Tree) {
    InvHeap(r, s.heap, s.toks) && !s.fault
  }

  // ----- sets of claims -----

  function PinOf(toks: map<Id, Token>, k: Id): Option<Tb> {
    if k in toks then Pinned(toks[k]) else None
  }

  lemma PinsChange(toks: map<Id, Token>, k: Id, tok: Token, t: Tb)
    ensures |PinsOn(toks[k := tok], t)| == |PinsOn(toks, t)| + Bit(Pinned(tok) == Some(t)) - Bit(PinOf(toks, k) == Some(t))
  {
    assert PinsOn(toks[k := tok], t) == if Pinned(tok) == Some(t) then PinsOn(toks, t) + {k} else PinsOn(toks, t) - {k};
    Card(PinsOn(toks, t), k);
  }

  // ----- one claim changes -----

  /** Only reference counts and marks differ. */
  ghost predicate Refit(heap: map<Tb, Table>, heap': map<Tb, Table>) {
    && heap'.Keys == heap.Keys
    && forall t :: t in heap ==> heap'[t].url == heap[t].url && heap'[t].parent == heap[t].parent && heap'[t].next == heap[t].next
  }

  lemma RefitShape(r: Remote, heap: map<Tb, Table>, heap': map<Tb, Table>)
    requires Shape(r, heap) && Refit(heap, heap') && !heap'[ROOT].orphaned
    ensures Shape(r, heap')
  {
    RefitNext(heap, heap');
    hide NextOf, Entries;
    forall t | t in heap'
      ensures UpOk(r, heap', t)
    {
      assert UpOk(r, heap, t);
    }
    forall t, i: nat
      ensures DownOk(heap', t, i)
    {
      assert DownOk(heap, t, i);
    }
  }

  lemma RefitNext(heap: map<Tb, Table>, heap': map<Tb, Table>)
    requires Refit(heap, heap')
    ensures forall t, i: nat :: NextOf(heap', t, i) == NextOf(heap, t, i)
  {
  }

  lemma RefitTok(r: Remote, heap: map<Tb, Table>, heap': map<Tb, Table>, tok: Token)
    requires TokOk(r, heap, tok) && Refit(heap, heap')
    ensures TokOk(r, heap', tok)
  {
    hide Lookup, Walk;
  }

  lemma RefitChildren(heap: map<Tb, Table>, heap': map<Tb, Table>)
    requires Refit(heap, heap')
    ensures forall t :: Children(heap', t) == Children(heap, t)
  {
  }

  /** Claim `k` becomes `tok`, and the counts follow. */
  ghost predicate Moves(heap: map<Tb, Table>, heap': map<Tb, Table>, toks: map<Id, Token>, k: Id, tok: Token) {
    && Refit(heap, heap')
    && (forall t :: t in heap ==>
          && heap'[t].refs == heap[t].refs + Bit(Pinned(tok) == Some(t)) - Bit(PinOf(toks, k) == Some(t))
          && (heap'[t].orphaned ==> heap[t].orphaned || (Pinned(tok) == Some(t) && t != ROOT))
          && (heap'[t].refs == 0 && heap'[t].orphaned ==> heap[t].refs == 0 && heap[t].orphaned))
  }

  lemma ClaimMoves(r: Remote, heap: map<Tb, Table>, heap': map<Tb, Table>, toks: map<Id, Token>, k: Id, tok: Token)
    requires InvHeap(r, heap, toks) && Moves(heap, heap', toks, k, tok) && TokOk(r, heap', tok)
    ensures InvHeap(r, heap', toks[k := tok])
  {
    hide TokOk, UpOk, DownOk, PinsOn, Children;
    RefitShape(r, heap, heap');
    RefitChildren(heap, heap');
    forall t | t in heap'
      ensures heap'[t].refs == |PinsOn(toks[k := tok], t)| + |Children(heap', t)|
    {
      PinsChange(toks, k, tok, t);
    }
    forall j | j in toks
      ensures TokOk(r, heap', toks[j])
    {
      RefitTok(r, heap, heap', toks[j]);
    }
  }

  // ----- a table is attached -----

  /** The heap after attaching, table by table. */
  lemma AttachSpec(r: Remote, heap: map<Tb, Table>, t: Tb, i: nat, c: Tb)
    requires t in heap && i < |heap[t].next| && c !in heap && NextOf(heap, t, i).None?
    ensures var heap' := Attach(r, heap, t, i, c);
            && heap'.Keys == heap.Keys + {c}
            && heap'[c].url == ChildUrl(r, heap, t, i) && heap'[c].refs == 0 && !heap'[c].orphaned
            && heap'[c].parent == Some(Place(t, i)) && |heap'[c].next| == |Entries(r, heap'[c].url)|
            && (forall x :: x in heap ==>
                  && heap'[x].url == heap[x].url && heap'[x].parent == heap[x].parent && |heap'[x].next| == |heap[x].next|
                  && heap'[x].refs == heap[x].refs + Bit(x == t) && heap'[x].orphaned == heap[x].orphaned)
            && (forall x, j: nat :: NextOf(heap', x, j)
                                    == if x == t && j == i then Some(c) else if x == c then None else NextOf(heap, x, j))
  {
  }

  lemma AttachShape(r: Remote, heap: map<Tb, Table>, t: Tb, i: nat, c: Tb)
    requires Shape(r, heap) && t in heap && i < |heap[t].next| && c !in heap && NextOf(heap, t, i).None?
    ensures Shape(r, Attach(r, heap, t, i, c))
  {
    hide Attach, NextOf, Entries, UpOk, DownOk;
    AttachSpec(r, heap, t, i, c);
    AttachUps(r, heap, t, i, c);
    AttachDowns(r, heap, t, i, c);
  }

  lemma SameChildUrl(r: Remote, heap: map<Tb, Table>, heap': map<Tb, Table>, q: Tb, i: nat)
    requires q in heap && q in heap' && heap'[q].url == heap[q].url
    ensures ChildUrl(r, heap', q, i) == ChildUrl(r, heap, q, i)
  {
  }

  lemma AttachUps(r: Remote, heap: map<Tb, Table>, t: Tb, i: nat, c: Tb)
    requires forall x :: x in heap ==> UpOk(r, heap, x)
    requires t in heap && i < |heap[t].next| && c !in heap && NextOf(heap, t, i).None?
    ensures var heap' := Attach(r, heap, t, i, c); forall x :: x in heap' ==> UpOk(r, heap', x)
  {
    var heap' := Attach(r, heap, t, i, c);
    AttachSpec(r, heap, t, i, c);
    hide Attach, NextOf, Entries, ChildUrl;
    SameChildUrl(r, heap, heap', t, i);
    forall x | x in heap'
      ensures UpOk(r, heap', x)
    {
      if x != c {
        assert UpOk(r, heap, x);
        if x != ROOT {
          SameChildUrl(r, heap, heap', heap[x].parent.value.tb, heap[x].parent.value.i);
        }
      }
    }
  }

  lemma AttachDowns(r: Remote, heap: map<Tb, Table>, t: Tb, i: nat, c: Tb)
    requires forall x, j: nat :: DownOk(heap, x, j)
    requires t in heap && i < |heap[t].next| && c !in heap && NextOf(heap, t, i).None?
    ensures var heap' := Attach(r, heap, t, i, c); forall x, j: nat :: DownOk(heap', x, j)
  {
    var heap' := Attach(r, heap, t, i, c);
    AttachSpec(r, heap, t, i, c);
    hide Attach, NextOf, Entries, ChildUrl;
    forall x, j: nat
      ensures DownOk(heap', x, j)
    {
      assert DownOk(heap, x, j);
    }
  }

  lemma AttachChildren(r: Remote, heap: map<Tb, Table>, t: Tb, i: nat, c: Tb)
    requires Shape(r, heap) && t in heap && i < |heap[t].next| && c !in heap && NextOf(heap, t, i).None?
    ensures var heap' := Attach(r, heap, t, i, c);
            && Children(heap', c) == {}
            && forall x :: x in heap ==> |Children(heap', x)| == |Children(heap, x)| + Bit(x == t)
  {
    var heap' := Attach(r, heap, t, i, c);
    hide Attach, NextOf, Entries, Shape;
    AttachSpec(r, heap, t, i, c);
    Orphanless(r, heap, c);
    assert Children(heap', c) == {};
    forall x | x in heap
      ensures |Children(heap', x)| == |Children(heap, x)| + Bit(x == t)
    {
      assert Children(heap', x) == if x == t then Children(heap, x) + {c} else Children(heap, x);
      Card(Children(heap, x), c);
    }
  }

  /** No live table names a parent that is not live. */
  lemma Orphanless(r: Remote, heap: map<Tb, Table>, c: Tb)
    requires Shape(r, heap) && c !in heap
    ensures forall x :: x in heap ==> !ChildOf(heap[x], c)
  {
    hide DownOk;
    forall x | x in heap
      ensures !ChildOf(heap[x], c)
    {
      assert UpOk(r, heap, x);
    }
  }

  lemma AttachLedger(r: Remote, heap: map<Tb, Table>, toks: map<Id, Token>, t: Tb, i: nat, c: Tb)
    requires Shape(r, heap) && LedgerOk(heap, toks) && ToksOk(r, heap, toks)
    requires t in heap && i < |heap[t].next| && c !in heap && NextOf(heap, t, i).None?
    ensures LedgerOk(Attach(r, heap, t, i, c), toks)
  {
    hide Lookup, Walk, Shape;
    AttachSpec(r, heap, t, i, c);
    AttachChildren(r, heap, t, i, c);
    hide Attach, NextOf, Children;
    assert PinsOn(toks, c) == {};
  }

  lemma AttachToks(r: Remote, heap: map<Tb, Table>, toks: map<Id, Token>, t: Tb, i: nat, c: Tb)
    requires ToksOk(r, heap, toks) && t in heap && c !in heap
    ensures ToksOk(r, Attach(r, heap, t, i, c), toks)
  {
    hide Lookup, Walk;
  }

  lemma AttachKeeps(r: Remote, heap: map<Tb, Table>, toks: map<Id, Token>, t: Tb, i: nat, c: Tb)
    requires InvHeap(r, heap, toks) && t in heap && i < |heap[t].next| && c !in heap
    ensures var heap' := Attach(r, heap, t, i, c);
            && InvHeap(r, heap', toks) && t in heap' && heap'[t].url == heap[t].url && |heap'[t].next| == |heap[t].next|
            && NextOf(heap', t, i).Some? && NextOf(heap', t, i).value in heap'
            && heap'[NextOf(heap', t, i).value].url == ChildUrl(r, heap, t, i)
            && NextOf(heap', t, i).value != ROOT
  {
    hide Shape, ToksOk, LedgerOk;
    if NextOf(heap, t, i).None? {
      AttachShape(r, heap, t, i, c);
      AttachLedger(r, heap, toks, t, i, c);
      AttachToks(r, heap, toks, t, i, c);
      AttachIdle(r, heap, toks, t, i, c);
    }
    LoadedChild(r, Attach(r, heap, t, i, c), t, i);
  }

  lemma AttachIdle(r: Remote, heap: map<Tb, Table>, toks: map<Id, Token>, t: Tb, i: nat, c: Tb)
    requires IdleOk(heap) && LedgerOk(heap, toks) && t in heap && i < |heap[t].next| && c !in heap && NextOf(heap, t, i).None?
    ensures var heap' := Attach(r, heap, t, i, c);
            && IdleOk(heap') && heap'[t].url == heap[t].url && |heap'[t].next| == |heap[t].next| && NextOf(heap', t, i) == Some(c)
  {
    AttachSpec(r, heap, t, i, c);
    hide Attach, NextOf;
    assert PinsOn(toks, t) >= {} && Children(heap, t) >= {};
  }

  /** The table loaded for a link is live, is not the root and lists the link's URL. */
  lemma LoadedChild(r: Remote, heap: map<Tb, Table>, t: Tb, i: nat)
    requires Shape(r, heap) && NextOf(heap, t, i).Some?
    ensures var c := NextOf(heap, t, i).value;
            c in heap && c != ROOT && heap[c].url == ChildUrl(r, heap, t, i) && heap[c].parent == Some(Place(t, i))
  {
    assert DownOk(heap, t, i);
    assert UpOk(r, heap, NextOf(heap, t, i).value);
  }

  // ----- walking loaded tables agrees with the full walk -----

  /** Over loaded tables the walk goes where the full walk goes, and follows only live pointers. */
  lemma {:induction false} DescendIsWalk(r: Remote, heap: map<Tb, Table>, t: Tb, path: string)
    requires Shape(r, heap) && t in heap
    ensures match Descend(r, heap, t, path)
            case Missing => Walk(r, heap[t].url, path).None?
            case Found(u, i) => u in heap && i < |heap[u].next| && Walk(r, heap[t].url, path) == Some(Spot(heap[u].url, i))
            case Load(u, i, rest) => u in heap && i < |heap[u].next| && Walk(r, heap[t].url, path) == Walk(r, ChildUrl(r, heap, u, i), rest)
            case Dangling => false
    decreases |path|
  {
    var part := Split(path);
    if part.More? && FindEntry(Entries(r, heap[t].url), part.name).Some? {
      var i := FindEntry(Entries(r, heap[t].url), part.name).value;
      if NextOf(heap, t, i).Some? {
        LoadedChild(r, heap, t, i);
        DescendIsWalk(r, heap, NextOf(heap, t, i).value, part.rest);
      }
    }
  }

  // ----- a table is freed -----

  lemma ListedChild(heap: map<Tb, Table>, t: Tb, i: nat)
    requires DownOk(heap, t, i)
    ensures NextOf(heap, t, i).None? || NextOf(heap, t, i).value in Children(heap, t)
  {
  }

  /** The last claim is the only one: no other claim, no child, no loaded link. */
  lemma Unclaimed(r: Remote, heap: map<Tb, Table>, toks: map<Id, Token>, k: Id, t: Tb)
    requires InvHeap(r, heap, toks) && k in toks && Pinned(toks[k]) == Some(t) && Frees(heap, t)
    ensures PinsOn(toks, t) == {k} && Children(heap, t) == {} && t != ROOT
    ensures forall i: nat :: NextOf(heap, t, i).None?
  {
    hide UpOk, TokOk, DownOk;
    assert k in PinsOn(toks, t);
    Card(PinsOn(toks, t), k);
    assert |PinsOn(toks, t) - {k}| == 0 && |Children(heap, t)| == 0;
    assert PinsOn(toks, t) == {k} by {
      assert PinsOn(toks, t) - {k} == {};
    }
    forall i: nat
      ensures NextOf(heap, t, i).None?
    {
      ListedChild(heap, t, i);
    }
  }

  /** The heap after freeing, table by table. */
  lemma FreeSpec(heap: map<Tb, Table>, t: Tb, q: Tb, i: nat)
    requires t in heap && q in heap && q != t && i < |heap[q].next|
    ensures var heap' := SetNext(heap - {t}, q, i, None);
            && heap'.Keys == heap.Keys - {t}
            && (forall x :: x in heap' ==>
                  && heap'[x].url == heap[x].url && heap'[x].parent == heap[x].parent && |heap'[x].next| == |heap[x].next|
                  && heap'[x].refs == heap[x].refs && heap'[x].orphaned == heap[x].orphaned)
            && (forall x, j: nat :: NextOf(heap', x, j) == if x == t || (x == q && j == i) then None else NextOf(heap, x, j))
  {
  }

  lemma ParentLink(r: Remote, heap: map<Tb, Table>, t: Tb, q: Tb, i: nat)
    requires Shape(r, heap) && t in heap && t != ROOT && heap[t].parent == Some(Place(q, i)) && Children(heap, t) == {}
    ensures q in heap && q != t && i < |heap[q].next| && NextOf(heap, q, i) == Some(t)
  {
    assert UpOk(r, heap, t);
    assert t !in Children(heap, t);
  }

  lemma FreeShape(r: Remote, heap: map<Tb, Table>, t: Tb, q: Tb, i: nat)
    requires Shape(r, heap) && t in heap && t != ROOT && heap[t].parent == Some(Place(q, i)) && Children(heap, t) == {}
    ensures Shape(r, SetNext(heap - {t}, q, i, None)) && q in heap && q != t
  {
    hide SetNext, NextOf, Entries, UpOk, DownOk, Children;
    ParentLink(r, heap, t, q, i);
    FreeSpec(heap, t, q, i);
    FreeUps(r, heap, t, q, i);
    FreeDowns(r, heap, t, q, i);
  }

  lemma FreeUps(r: Remote, heap: map<Tb, Table>, t: Tb, q: Tb, i: nat)
    requires (forall x :: x in heap ==> UpOk(r, heap, x)) && Children(heap, t) == {}
    requires t in heap && q in heap && q != t && i < |heap[q].next| && NextOf(heap, q, i) == Some(t)
    ensures var heap' := SetNext(heap - {t}, q, i, None); forall x :: x in heap' ==> UpOk(r, heap', x)
  {
    var heap' := SetNext(heap - {t}, q, i, None);
    FreeSpec(heap, t, q, i);
    hide SetNext, NextOf, Entries;
    forall x | x in heap'
      ensures UpOk(r, heap', x)
    {
      assert UpOk(r, heap, x);
      assert x !in Children(heap, t);
    }
  }

  lemma FreeDowns(r: Remote, heap: map<Tb, Table>, t: Tb, q: Tb, i: nat)
    requires (forall x, j: nat :: DownOk(heap, x, j)) && heap.Keys >= {t, q} && q != t && i < |heap[q].next|
    requires heap[t].parent == Some(Place(q, i))
    ensures var heap' := SetNext(heap - {t}, q, i, None); forall x, j: nat :: DownOk(heap', x, j)
  {
    var heap' := SetNext(heap - {t}, q, i, None);
    FreeSpec(heap, t, q, i);
    hide SetNext, NextOf;
    forall x, j: nat
      ensures DownOk(heap', x, j)
    {
      assert DownOk(heap, x, j);
    }
  }

  lemma FreeLedger(r: Remote, heap: map<Tb, Table>, toks: map<Id, Token>, k: Id, t: Tb, q: Tb, i: nat)
    requires LedgerOk(heap, toks) && k in toks && Pinned(toks[k]) == Some(t) && t in heap && q in heap && q != t
    requires heap[t].parent == Some(Place(q, i)) && Children(heap, t) == {}
    ensures LedgerOk(SetNext(heap - {t}, q, i, None), toks[k := Freeing(q)])
  {
    var heap', toks' := SetNext(heap - {t}, q, i, None), toks[k := Freeing(q)];
    forall x | x in heap'
      ensures heap'[x].refs == |PinsOn(toks', x)| + |Children(heap', x)|
    {
      PinsChange(toks, k, Freeing(q), x);
      assert Children(heap', x) == Children(heap, x) - {t};
      Card(Children(heap, x), t);
      assert t in Children(heap, x) <==> x == q;
    }
  }

  lemma FreeToks(r: Remote, heap: map<Tb, Table>, toks: map<Id, Token>, k: Id, t: Tb, q: Tb, i: nat)
    requires ToksOk(r, heap, toks) && PinsOn(toks, t) == {k} && q in heap && q != t
    ensures ToksOk(r, SetNext(heap - {t}, q, i, None), toks[k := Freeing(q)])
  {
    hide Lookup, Walk;
    forall j | j in toks && j != k
      ensures TokOk(r, SetNext(heap - {t}, q, i, None), toks[j])
    {
      assert j !in PinsOn(toks, t);
      assert TokOk(r, heap, toks[j]);
    }
  }

  lemma FreeKeeps(r: Remote, heap: map<Tb, Table>, toks: map<Id, Token>, k: Id, t: Tb, q: Tb, i: nat)
    requires InvHeap(r, heap, toks) && k in toks && Pinned(toks[k]) == Some(t) && Frees(heap, t)
    requires heap[t].parent == Some(Place(q, i))
    ensures InvHeap(r, SetNext(heap - {t}, q, i, None), toks[k := Freeing(q)])
  {
    hide Shape, LedgerOk, ToksOk, PinsOn, Children;
    Unclaimed(r, heap, toks, k, t);
    FreeShape(r, heap, t, q, i);
    FreeLedger(r, heap, toks, k, t, q, i);
    FreeToks(r, heap, toks, k, t, q, i);
  }

  // ----- steps -----

  lemma PinnedRefs(r: Remote, heap: map<Tb, Table>, toks: map<Id, Token>, k: Id, t: Tb)
    requires InvHeap(r, heap, toks) && k in toks && Pinned(toks[k]) == Some(t)
    ensures t in heap && heap[t].refs >= 1
  {
    hide Shape, IdleOk;
    assert TokOk(r, heap, toks[k]);
    assert k in PinsOn(toks, t);
    assert |PinsOn(toks, t)| > 0;
  }

  lemma ParentOf(r: Remote, heap: map<Tb, Table>, t: Tb)
    requires Shape(r, heap) && t in heap && t != ROOT
    ensures heap[t].parent.Some?
  {
    assert UpOk(r, heap, t);
  }

  lemma UnrefKeeps(r: Remote, s: Tree, k: Id, t: Tb)
    requires InvHeap(r, s.heap, s.toks) && k in s.toks && Pinned(s.toks[k]) == Some(t)
    ensures var s' := Unref(s, k, t); InvHeap(r, s'.heap, s'.toks) && s'.fault == s.fault
  {
    hide Shape, LedgerOk, ToksOk, PinsOn, Children, InvHeap;
    PinnedRefs(r, s.heap, s.toks, k, t);
    if Frees(s.heap, t) {
      Unclaimed(r, s.heap, s.toks, k, t);
      HasShape(r, s);
      ParentOf(r, s.heap, t);
      FreeKeeps(r, s.heap, s.toks, k, t, s.heap[t].parent.value.tb, s.heap[t].parent.value.i);
    } else {
      ClaimMoves(r, s.heap, Bump(s.heap, t, -1), s.toks, k, Ended);
    }
  }

  lemma HasShape(r: Remote, s: Tree)
    requires InvHeap(r, s.heap, s.toks)
    ensures Shape(r, s.heap) && forall k :: k in s.toks ==> TokOk(r, s.heap, s.toks[k])
  {
  }

  /** A walk ends in a claim that says what the full walk says. */
  lemma WalkEnds(r: Remote, heap: map<Tb, Table>, path: string, t: Tb, rest: string)
    requires Shape(r, heap) && t in heap && Lookup(r, path) == Walk(r, heap[t].url, rest)
    ensures TokOk(r, Pin(heap, Claim(path, Descend(r, heap, t, rest))), Claim(path, Descend(r, heap, t, rest)))
    ensures !Descend(r, heap, t, rest).Dangling?
  {
    DescendIsWalk(r, heap, t, rest);
    hide Lookup, Walk, Descend, UpOk, DownOk;
  }

  lemma PinIsBump(heap: map<Tb, Table>, tok: Token)
    ensures Pin(heap, tok) == BumpOpt(heap, Pinned(tok), 1)
  {
  }

  lemma UnpinnedShape(r: Remote, heap: map<Tb, Table>, toks: map<Id, Token>, k: Id)
    requires InvHeap(r, heap, toks)
    ensures var heap1 := BumpOpt(heap, PinOf(toks, k), -1);
            Shape(r, heap1) && heap1.Keys == heap.Keys && forall t :: t in heap ==> heap1[t].url == heap[t].url
  {
    hide LedgerOk, ToksOk, UpOk, DownOk;
    RefitShape(r, heap, BumpOpt(heap, PinOf(toks, k), -1));
  }

  lemma SettleKeeps(r: Remote, heap: map<Tb, Table>, toks: map<Id, Token>, k: Id, path: string, t: Tb, rest: string)
    requires InvHeap(r, heap, toks) && t in heap && Lookup(r, path) == Walk(r, heap[t].url, rest)
    requires PinOf(toks, k).Some? ==> PinOf(toks, k).value in heap && heap[PinOf(toks, k).value].refs >= 2
    ensures var s' := Settle(r, BumpOpt(heap, PinOf(toks, k), -1), toks, k, path, t, rest);
            InvHeap(r, s'.heap, s'.toks) && !s'.toks[k].Ended?
  {
    hide LedgerOk, ToksOk, UpOk, DownOk, Lookup, Walk, Descend, TokOk;
    var heap1 := BumpOpt(heap, PinOf(toks, k), -1);
    UnpinnedShape(r, heap, toks, k);
    NonNegative(heap, toks);
    hide InvHeap, BumpOpt, PinOf, Pin, Pinned, Shape, Moves;
    WalkEnds(r, heap1, path, t, rest);
    var tok := Claim(path, Descend(r, heap1, t, rest));
    hide Claim;
    SettleMoves(heap, toks, k, tok);
    PinIsBump(heap1, tok);
    ClaimMoves(r, heap, Pin(heap1, tok), toks, k, tok);
  }

  lemma NonNegative(heap: map<Tb, Table>, toks: map<Id, Token>)
    requires LedgerOk(heap, toks)
    ensures forall t :: t in heap ==> heap[t].refs >= 0
  {
  }

  function BumpOpt(heap: map<Tb, Table>, o: Option<Tb>, d: int): map<Tb, Table> {
    match o
    case Some(q) => Bump(heap, q, d)
    case None => heap
  }

  lemma SettleMoves(heap: map<Tb, Table>, toks: map<Id, Token>, k: Id, tok: Token)
    requires forall t :: t in heap ==> heap[t].refs >= 0
    requires PinOf(toks, k).Some? ==> PinOf(toks, k).value in heap && heap[PinOf(toks, k).value].refs >= 2
    ensures Moves(heap, BumpOpt(BumpOpt(heap, PinOf(toks, k), -1), Pinned(tok), 1), toks, k, tok)
  {
    BumpSpec(heap, PinOf(toks, k), -1);
    BumpSpec(BumpOpt(heap, PinOf(toks, k), -1), Pinned(tok), 1);
    hide BumpOpt, PinOf, Pinned;
  }

  lemma BumpSpec(heap: map<Tb, Table>, o: Option<Tb>, d: int)
    ensures var heap' := BumpOpt(heap, o, d);
            && Refit(heap, heap')
            && forall x :: x in heap ==> heap'[x].refs == heap[x].refs + d * Bit(o == Some(x)) && heap'[x].orphaned == heap[x].orphaned
  {
  }

  lemma HandleMoves(r: Remote, heap: map<Tb, Table>, toks: map<Id, Token>, h: Id, c: Tb, slash: bool)
    requires h !in toks && c in heap && (slash <==> c == ROOT)
    ensures var heap' := SetOrphaned(Bump(heap, c, 1), c, false);
            Moves(heap, heap', toks, h, DirHandle(c, slash)) && TokOk(r, heap', DirHandle(c, slash))
  {
  }

  lemma HandleKeeps(r: Remote, heap: map<Tb, Table>, toks: map<Id, Token>, h: Id, c: Tb, slash: bool)
    requires InvHeap(r, heap, toks) && h !in toks && c in heap && (slash <==> c == ROOT)
    ensures var s' := GiveHandle(heap, toks, h, c, slash); InvHeap(r, s'.heap, s'.toks)
  {
    hide InvHeap, Moves, TokOk, Bump, SetOrphaned;
    HandleMoves(r, heap, toks, h, c, slash);
    ClaimMoves(r, heap, SetOrphaned(Bump(heap, c, 1), c, false), toks, h, DirHandle(c, slash));
  }

  /** The claim's table has a loaded child besides the claim. */
  lemma ParentPinned(r: Remote, heap: map<Tb, Table>, toks: map<Id, Token>, k: Id, t: Tb, i: nat)
    requires InvHeap(r, heap, toks) && k in toks && Pinned(toks[k]) == Some(t) && NextOf(heap, t, i).Some?
    ensures t in heap && heap[t].refs >= 2
  {
    hide IdleOk, TokOk, UpOk;
    assert DownOk(heap, t, i);
    assert TokOk(r, heap, toks[k]);
    PinnedRefs(r, heap, toks, k, t);
    assert k in PinsOn(toks, t) && NextOf(heap, t, i).value in Children(heap, t);
    assert |PinsOn(toks, t)| > 0 && |Children(heap, t)| > 0;
  }

  /** The invariant after the step, on its parts. */
  ghost predicate KeptBy(r: Remote, s: Tree, e: Step)
    requires Enabled(r, s, e)
  {
    var s' := Effect(r, s, e); InvHeap(r, s'.heap, s'.toks)
  }

  /** After link `i` of `t` has been fetched as `c`: it is the link's table, unless another thread was
      faster; then that thread's table stays and `c` is dropped. */
  ghost predicate AttachedOrDropped(heap: map<Tb, Table>, heap': map<Tb, Table>, t: Tb, i: nat, c: Tb) {
    match NextOf(heap, t, i)
    case None => NextOf(heap', t, i) == Some(c) && c in heap' && heap'[c].parent == Some(Place(t, i))
    case Some(d) => NextOf(heap', t, i) == Some(d) && c !in heap'
  }

  lemma AttachOutcome(r: Remote, heap: map<Tb, Table>, heap': map<Tb, Table>, t: Tb, i: nat, c: Tb)
    requires t in heap && i < |heap[t].next| && c !in heap && Refit(Attach(r, heap, t, i, c), heap')
    ensures AttachedOrDropped(heap, heap', t, i, c)
  {
    if NextOf(heap, t, i).None? {
      AttachSpec(r, heap, t, i, c);
    }
    hide Attach;
    RefitNext(Attach(r, heap, t, i, c), heap');
  }

  lemma BumpRefits(heap: map<Tb, Table>, heap1: map<Tb, Table>, q: Tb, d: int)
    requires Refit(heap, heap1)
    ensures Refit(heap, Bump(heap1, q, d))
  {
  }

  lemma SettleRefits(r: Remote, heap: map<Tb, Table>, toks: map<Id, Token>, k: Id, path: string, t: Tb, rest: string, q: Tb)
    ensures Refit(heap, Settle(r, Bump(heap, q, -1), toks, k, path, t, rest).heap)
  {
    var heap1 := Bump(heap, q, -1);
    BumpRefits(heap, heap, q, -1);
    hide Descend, Bump, Refit, Claim, Pinned;
    var tok := Claim(path, Descend(r, heap1, t, rest));
    if Pinned(tok).Some? {
      BumpRefits(heap, heap1, Pinned(tok).value, 1);
    }
  }

  lemma FetchedKeeps(r: Remote, s: Tree, e: Step)
    requires InvHeap(r, s.heap, s.toks) && Enabled(r, s, e) && e.Fetched?
    ensures KeptBy(r, s, e) && !Effect(r, s, e).toks[e.id].Ended?
    ensures AttachedOrDropped(s.heap, Effect(r, s, e).heap, s.toks[e.id].tb, s.toks[e.id].i, e.c)
  {
    hide InvHeap, Shape, Lookup, Walk, Settle, Attach, AttachedOrDropped;
    var k := s.toks[e.id];
    HasShape(r, s);
    AttachKeeps(r, s.heap, s.toks, k.tb, k.i, e.c);
    var heap := Attach(r, s.heap, k.tb, k.i, e.c);
    var n := NextOf(heap, k.tb, k.i).value;
    ParentPinned(r, heap, s.toks, e.id, k.tb, k.i);
    SettleKeeps(r, heap, s.toks, e.id, k.path, n, k.rest);
    SettleRefits(r, heap, s.toks, e.id, k.path, n, k.rest, k.tb);
    AttachOutcome(r, s.heap, Effect(r, s, e).heap, k.tb, k.i, e.c);
  }

  lemma BeginKeeps(r: Remote, s: Tree, e: Step)
    requires InvHeap(r, s.heap, s.toks) && Enabled(r, s, e) && e.Begin?
    ensures KeptBy(r, s, e) && !Descend(r, s.heap, ROOT, Shorten(e.path, PATH_MAX)).Dangling?
  {
    hide Walk, Descend;
    SettleKeeps(r, s.heap, s.toks, e.id, e.path, ROOT, Shorten(e.path, PATH_MAX));
    DescendIsWalk(r, s.heap, ROOT, Shorten(e.path, PATH_MAX));
  }

  /** The handle `h` is on a live table, which is not marked for eviction. */
  ghost predicate OpensLive(s: Tree, h: Id) {
    h in s.toks && s.toks[h].DirHandle? && s.toks[h].tb in s.heap && !s.heap[s.toks[h].tb].orphaned
  }

  lemma OpenFetchedKeeps(r: Remote, s: Tree, e: Step)
    requires InvHeap(r, s.heap, s.toks) && Enabled(r, s, e) && e.OpenFetched?
    ensures KeptBy(r, s, e) && OpensLive(Effect(r, s, e), e.h)
    ensures AttachedOrDropped(s.heap, Effect(r, s, e).heap, s.toks[e.id].tb, s.toks[e.id].i, e.c)
  {
    hide InvHeap, Shape, Lookup, Attach, AttachedOrDropped;
    var k := s.toks[e.id];
    HasShape(r, s);
    AttachKeeps(r, s.heap, s.toks, k.tb, k.i, e.c);
    var heap := Attach(r, s.heap, k.tb, k.i, e.c);
    var n := NextOf(heap, k.tb, k.i).value;
    RenameClaim(r, heap, s.toks, e.id, Linked(k.path, k.tb, k.i));
    HandleKeeps(r, heap, s.toks[e.id := Linked(k.path, k.tb, k.i)], e.h, n, false);
    AttachOutcome(r, s.heap, Effect(r, s, e).heap, k.tb, k.i, e.c);
  }

  /** A claim changes its name but not its table or its path. */
  lemma RenameClaim(r: Remote, heap: map<Tb, Table>, toks: map<Id, Token>, k: Id, tok: Token)
    requires InvHeap(r, heap, toks) && k in toks && Pinned(toks[k]) == Pinned(tok)
    requires TokOk(r, heap, toks[k]) ==> TokOk(r, heap, tok)
    ensures InvHeap(r, heap, toks[k := tok])
  {
    hide Shape, LedgerOk, TokOk;
    ClaimMoves(r, heap, heap, toks, k, tok);
  }

  lemma OpenDirKeeps(r: Remote, s: Tree, e: Step)
    requires InvHeap(r, s.heap, s.toks) && Enabled(r, s, e) && e.OpenDir?
    ensures KeptBy(r, s, e)
    ensures e.h in Effect(r, s, e).toks ==> OpensLive(Effect(r, s, e), e.h)
  {
    hide InvHeap, Shape, Lookup;
    var k := s.toks[e.id];
    HasShape(r, s);
    if NextOf(s.heap, k.tb, k.i).Some? {
      LoadedChild(r, s.heap, k.tb, k.i);
      HandleKeeps(r, s.heap, s.toks, e.h, NextOf(s.heap, k.tb, k.i).value, false);
    } else {
      RenameClaim(r, s.heap, s.toks, e.id, Opening(k.path, k.tb, k.i));
    }
  }

  /** Marking is a move of the claim: its table keeps its count, and only a table other than the root is
      marked. */
  lemma MarkMoves(r: Remote, heap: map<Tb, Table>, toks: map<Id, Token>, id: Id, t: Tb, slash: bool)
    requires id in toks && Pinned(toks[id]) == Some(t) && t in heap && heap[t].refs >= 1 && (slash <==> t == ROOT)
    requires t == ROOT ==> !heap[t].orphaned
    ensures var heap' := if slash then heap else SetOrphaned(heap, t, true);
            Moves(heap, heap', toks, id, Closing(t)) && t in heap' && (heap'[t].orphaned <==> t != ROOT)
  {
  }

  lemma DirIs(r: Remote, s: Tree, id: Id)
    requires InvHeap(r, s.heap, s.toks) && id in s.toks && s.toks[id].DirHandle?
    ensures s.toks[id].slash <==> s.toks[id].tb == ROOT
    ensures ROOT in s.heap && !s.heap[ROOT].orphaned
  {
    HasShape(r, s);
    RootLives(r, s.heap);
    hide InvHeap, Shape, LinkOk, Lookup, ChildUrl;
  }

  lemma ClosingOk(r: Remote, heap: map<Tb, Table>, t: Tb)
    requires t in heap
    ensures TokOk(r, heap, Closing(t))
  {
  }

  lemma MarkKeeps(r: Remote, s: Tree, e: Step)
    requires InvHeap(r, s.heap, s.toks) && Enabled(r, s, e) && e.MarkDir?
    ensures KeptBy(r, s, e)
    ensures var t, heap' := s.toks[e.id].tb, Effect(r, s, e).heap; t in heap' && (heap'[t].orphaned <==> t != ROOT)
  {
    hide InvHeap, Moves, TokOk;
    var k := s.toks[e.id];
    DirIs(r, s, e.id);
    PinnedRefs(r, s.heap, s.toks, e.id, k.tb);
    MarkMoves(r, s.heap, s.toks, e.id, k.tb, k.slash);
    var heap' := if k.slash then s.heap else SetOrphaned(s.heap, k.tb, true);
    ClosingOk(r, heap', k.tb);
    ClaimMoves(r, s.heap, heap', s.toks, e.id, Closing(k.tb));
  }

  lemma RenameKeeps(r: Remote, s: Tree, e: Step)
    requires InvHeap(r, s.heap, s.toks) && Enabled(r, s, e)
    requires e.OpenFailed? || e.CacheFirst? || e.CacheAgain? || e.CacheClose?
    ensures KeptBy(r, s, e)
  {
    hide InvHeap, Lookup;
    var s' := Effect(r, s, e);
    var k := if e.OpenFailed? || e.CacheFirst? then e.id else e.cache;
    RenameClaim(r, s.heap, s.toks, k, s'.toks[k]);
  }

  /** Every step keeps the ledger and the shape of the tree. */
  lemma EffectKeeps(r: Remote, s: Tree, e: Step)
    requires InvHeap(r, s.heap, s.toks) && Enabled(r, s, e)
    ensures KeptBy(r, s, e)
  {
    hide InvHeap, Unref, Settle, GiveHandle, Attach;
    match e
    case Begin(_, _) => BeginKeeps(r, s, e);
    case Fetched(_, _) => FetchedKeeps(r, s, e);
    case FetchFailed(id) => UnrefKeeps(r, s, id, s.toks[id].tb);
    case Release(id) => UnrefKeeps(r, s, id, s.toks[id].tb);
    case OpenRoot(id) => HasShape(r, s); HandleKeeps(r, s.heap, s.toks, id, ROOT, true);
    case OpenDir(_, _) => OpenDirKeeps(r, s, e);
    case OpenFetched(_, _, _) => OpenFetchedKeeps(r, s, e);
    case OpenFailed(_) | CacheFirst(_) | CacheAgain(_, _) | CacheClose(_) => RenameKeeps(r, s, e);
    case MarkDir(_) => MarkKeeps(r, s, e);
    case CloseDir(id) => UnrefKeeps(r, s, id, s.toks[id].tb);
    case FreeParent(id) => UnrefKeeps(r, s, id, s.toks[id].tb);
  }

  /** A table is freed only when nothing else refers to it. */
  lemma FreedIsUnneeded(r: Remote, s: Tree, k: Id, t: Tb)
    requires InvHeap(r, s.heap, s.toks) && k in s.toks && Pinned(s.toks[k]) == Some(t) && Frees(s.heap, t)
    ensures !Needed(s, k, t)
  {
    Unclaimed(r, s.heap, s.toks, k, t);
    hide InvHeap;
    Unneeded(s, k, t);
  }

  lemma Unneeded(s: Tree, k: Id, t: Tb)
    requires PinsOn(s.toks, t) == {k} && Children(s.heap, t) == {} && t != ROOT && t in s.heap
    requires forall i: nat :: NextOf(s.heap, t, i).None?
    ensures !Needed(s, k, t)
  {
    forall j | j in s.toks && j != k
      ensures Pinned(s.toks[j]) != Some(t)
    {
      assert j !in PinsOn(s.toks, t);
    }
    forall c | c in s.heap
      ensures !ChildOf(s.heap[c], t)
    {
      assert c !in Children(s.heap, t);
    }
    forall i | 0 <= i < |s.heap[t].next|
      ensures s.heap[t].next[i].None?
    {
      assert NextOf(s.heap, t, i).None?;
    }
  }

  lemma NoBadClaim(r: Remote, s: Tree, e: Step)
    requires InvHeap(r, s.heap, s.toks) && Enabled(r, s, e)
    ensures !BadClaim(s, e)
  {
    HasShape(r, s);
    hide InvHeap, UpOk, DownOk;
    RootLives(r, s.heap);
  }

  lemma NoBadWalk(r: Remote, s: Tree, e: Step)
    requires InvHeap(r, s.heap, s.toks) && Enabled(r, s, e)
    ensures !BadWalk(r, s, e)
  {
    hide InvHeap, Descend, Effect;
    if e.Begin? {
      BeginKeeps(r, s, e);
    } else if e.Fetched? {
      FetchedKeeps(r, s, e);
    }
  }

  lemma NoBadHandle(r: Remote, s: Tree, e: Step)
    requires InvHeap(r, s.heap, s.toks) && Enabled(r, s, e)
    ensures !BadHandle(r, s, e)
  {
    hide InvHeap, Effect;
    if e.OpenDir? {
      OpenDirKeeps(r, s, e);
    } else if e.OpenFetched? {
      OpenFetchedKeeps(r, s, e);
    }
  }

  /** No step follows a freed pointer or frees a table that is still needed. */
  lemma NoTreeFault(r: Remote, s: Tree, e: Step)
    requires InvHeap(r, s.heap, s.toks) && Enabled(r, s, e)
    ensures !Bad(r, s, e)
  {
    hide InvHeap, Enabled, BadClaim, BadWalk, BadHandle, Needed, Frees;
    NoBadClaim(r, s, e);
    NoBadWalk(r, s, e);
    NoBadHandle(r, s, e);
    if BadFree(s, e) {
      FreedIsUnneeded(r, s, e.id, Pinned(s.toks[e.id]).value);
    }
  }

  lemma RootLives(r: Remote, heap: map<Tb, Table>)
    requires Shape(r, heap)
    ensures ROOT in heap && !heap[ROOT].orphaned
  {
  }

  /** Every step of every thread keeps the invariant, and none goes wrong. */
  lemma TreeStep(r: Remote, s: Tree, e: Step)
    requires TreeInv(r, s) && Enabled(r, s, e)
    ensures TreeInv(r, Apply(r, s, e))
  {
    hide InvHeap, Effect, Bad, Enabled;
    EffectKeeps(r, s, e);
    NoTreeFault(r, s, e);
  }

  lemma TreeInit(r: Remote)
    ensures TreeInv(r, InitTree(r))
  {
    var s := InitTree(r);
    assert PinsOn(s.toks, ROOT) == {} && Children(s.heap, ROOT) == {};
  }
}
