/** The ledger of trackers and transfer structures under each kind of change a step can make to them. */
module CacheMem {
  import opened Prelude
  import opened Blocks
  import opened CacheState
  import opened CacheInv
  import opened CacheTable
  import opened CacheSteps

  /** `t`'s record changes; wake-ups are only added, except that `t` itself may go back to sleep. */
  ghost predicate ThreadStep(s: State, s': State, t: Tid) {
    && t in s.thr && t in s'.thr && s'.thr == s.thr[t := s'.thr[t]]
    && s'.life.shutting == s.life.shutting
    && s.sig - {t} <= s'.sig
  }

  // ----- who waits and who is attached -----

  lemma WaitersChange(thr: map<Tid, Local>, t: Tid, l: Local)
    ensures forall a: nat :: WaitersOn(thr[t := l], a)
                             == if WaitOn(l) == Some(a) then WaitersOn(thr, a) + {t} else WaitersOn(thr, a) - {t}
  {
  }

  lemma WaitersSame(thr: map<Tid, Local>, t: Tid, l: Local)
    requires t in thr && WaitOn(thr[t]) == WaitOn(l)
    ensures forall a: nat :: WaitersOn(thr[t := l], a) == WaitersOn(thr, a)
  {
  }

  // ----- owners -----

  lemma OwnersSame(p: Params, s: State, s': State, t: Tid)
    requires p.blksz > 0 && Owners(p, s) && ThreadStep(s, s', t)
    requires Own(p, s'.thr[t]) == Own(p, s.thr[t])
    requires forall b: nat :: Tracked(s.mem.tb, b) ==> Tracked(s'.mem.tb, b)
    requires forall a: nat :: a in s'.mem.tb.list && a in s'.mem.tb.heap ==> Tracked(s.mem.tb, s'.mem.tb.heap[a].blk)
    ensures Owners(p, s')
  {
    forall a | a in s'.mem.tb.list && a in s'.mem.tb.heap
      ensures Owned(p, s', s'.mem.tb.heap[a].blk)
    {
      var b := s'.mem.tb.heap[a].blk;
      var c :| c in s.mem.tb.list && c in s.mem.tb.heap && s.mem.tb.heap[c].blk == b;
      assert Owned(p, s, b);
      var u :| u in s.thr && Own(p, s.thr[u]) == Some(b);
      assert u in s'.thr && Own(p, s'.thr[u]) == Some(b);
    }
  }

  // ----- wake-ups -----

  /** Waiters of `a` that could sleep before may still sleep. */
  ghost predicate Calm(s: State, s': State, a: Aid) {
    && a in s'.mem.tb.list
    && var u := At(s'.mem.tb, a).ts;
       || u.None? || u.value !in s'.mem.ts
       || (At(s.mem.tb, a).ts == u && u.value in s.mem.ts && s.mem.ts[u.value].data == s'.mem.ts[u.value].data)
  }

  lemma WakeKeeps(p: Params, s: State, s': State, t: Tid)
    requires p.blksz > 0 && WakeUps(p, s) && ThreadStep(s, s', t)
    requires forall a: nat :: a in s.mem.tb.list ==> Calm(s, s', a) || WaitersOn(s.thr, a) <= s'.sig
    requires WaitOn(s'.thr[t]).None? || t in s'.sig
             || (WaitOn(s'.thr[t]).value in s'.mem.tb.list && !s'.life.shutting && !Served(p, s', t, WaitOn(s'.thr[t]).value))
    ensures WakeUps(p, s')
  {
    forall u | u in s'.thr && WaitOn(s'.thr[u]).Some? && u !in s'.sig && u != t
      ensures WaitOn(s'.thr[u]).value in s'.mem.tb.list && !s'.life.shutting && !Served(p, s', u, WaitOn(s'.thr[u]).value)
    {
      var a := WaitOn(s.thr[u]).value;
      assert u in WaitersOn(s.thr, a);
      assert Calm(s, s', a);
    }
  }

  // ----- nothing about trackers or transfers changes -----

  lemma RefsSame(mem: Mem, thr: map<Tid, Local>, t: Tid, l: Local)
    requires t in thr && WaitOn(thr[t]) == WaitOn(l) && Refs(mem, thr)
    ensures Refs(mem, thr[t := l])
  {
    WaitersSame(thr, t, l);
  }

  lemma TransfersSame(p: Params, ts: map<Tid, Ts>, thr: map<Tid, Local>, t: Tid, l: Local)
    requires p.blksz > 0 && Transfers(p, ts, thr) && t in thr
    requires HasTs(l) == HasTs(thr[t]) && (HasTs(l) ==> Cur(p, l) == Cur(p, thr[t]))
    ensures Transfers(p, ts, thr[t := l])
  {
  }

  /** The thread keeps its block, its wait and its transfer structure. */
  ghost predicate SameWork(p: Params, l: Local, l': Local)
    requires p.blksz > 0
  {
    WaitOn(l') == WaitOn(l) && HasTs(l') == HasTs(l) && (HasTs(l) || WaitOn(l).Some? ==> Cur(p, l') == Cur(p, l))
  }

  lemma LedgerSame(p: Params, s: State, s': State, t: Tid)
    requires p.blksz > 0 && Transfers(p, s.mem.ts, s.thr) && Ledger(p, s) && ThreadStep(s, s', t) && s'.mem == s.mem
    requires SameWork(p, s.thr[t], s'.thr[t])
    ensures Transfers(p, s'.mem.ts, s'.thr) && Ledger(p, s')
  {
    hide RefsOk, TsOk, PointersOk;
    RefsSame(s.mem, s.thr, t, s'.thr[t]);
    TransfersSame(p, s.mem.ts, s.thr, t, s'.thr[t]);
  }

  lemma NoMemChange(p: Params, s: State, s': State, t: Tid)
    requires p.blksz > 0 && MemInv(p, s) && ThreadStep(s, s', t) && s'.mem == s.mem
    requires SameWork(p, s.thr[t], s'.thr[t]) && Own(p, s'.thr[t]) == Own(p, s.thr[t])
    requires WaitOn(s'.thr[t]).None? || t in s'.sig
             || (WaitOn(s'.thr[t]).value in s'.mem.tb.list && !s'.life.shutting && !Served(p, s', t, WaitOn(s'.thr[t]).value))
    ensures MemInv(p, s')
  {
    hide Owners, Ledger, Transfers, WakeUps, ListOk, Served, WaitersOn, TsOk, SameWork;
    LedgerSame(p, s, s', t);
    OwnersSame(p, s, s', t);
    forall a: nat | a in s.mem.tb.list
      ensures Calm(s, s', a)
    {
    }
    WakeKeeps(p, s, s', t);
  }

  // ----- a reader joins or leaves the waiters of a tracker -----

  lemma RefsJoin(mem: Mem, thr: map<Tid, Local>, t: Tid, l: Local, a: Aid)
    requires Refs(mem, thr) && a in mem.tb.heap && WaitOn(l) == Some(a) && t in thr && WaitOn(thr[t]).None?
    ensures Refs(mem.(tb := RefTracker(mem.tb, a)), thr[t := l])
  {
    WaitersChange(thr, t, l);
    forall x | x in mem.tb.heap
      ensures RefsOk(RefTracker(mem.tb, a), thr[t := l], mem.ts, x)
    {
      assert RefsOk(mem.tb, thr, mem.ts, x);
      Card(WaitersOn(thr, x), t);
    }
  }

  lemma RefsLeave(mem: Mem, thr: map<Tid, Local>, t: Tid, l: Local, a: Aid)
    requires Refs(mem, thr) && a in mem.tb.heap && WaitOn(l).None? && t in thr && WaitOn(thr[t]) == Some(a)
    ensures Refs(mem.(tb := UnrefTracker(mem.tb, a)), thr[t := l])
    ensures a in mem.tb.list ==> mem.tb.heap[a].refs > 1
    ensures mem.tb.heap[a].refs == 1 ==> WaitersOn(thr, a) == {t} && AttachedTo(mem.ts, a) == {}
  {
    WaitersChange(thr, t, l);
    assert RefsOk(mem.tb, thr, mem.ts, a);
    assert t in WaitersOn(thr, a);
    Card(WaitersOn(thr, a), t);
    forall x | x in UnrefTracker(mem.tb, a).heap
      ensures RefsOk(UnrefTracker(mem.tb, a), thr[t := l], mem.ts, x)
    {
      assert RefsOk(mem.tb, thr, mem.ts, x);
      Card(WaitersOn(thr, x), t);
    }
  }

  /** The acting thread sleeps, or would be entitled to the wake-up it has not had. */
  ghost predicate MaySleep(p: Params, s': State, t: Tid)
    requires p.blksz > 0 && t in s'.thr
  {
    || WaitOn(s'.thr[t]).None? || t in s'.sig
    || (WaitOn(s'.thr[t]).value in s'.mem.tb.list && !s'.life.shutting && !Served(p, s', t, WaitOn(s'.thr[t]).value))
  }

  lemma JoinMem(p: Params, s: State, s': State, t: Tid, a: Aid)
    requires p.blksz > 0 && MemInv(p, s) && ThreadStep(s, s', t)
    requires a in s.mem.tb.list && a in s.mem.tb.heap && s'.mem == s.mem.(tb := RefTracker(s.mem.tb, a))
    requires var l, l' := s.thr[t], s'.thr[t];
             && WaitOn(l).None? && WaitOn(l') == Some(a) && s.mem.tb.heap[a].blk == Cur(p, l')
             && !HasTs(l) && !HasTs(l') && Own(p, l) == Own(p, l')
    requires MaySleep(p, s', t)
    ensures MemInv(p, s')
  {
    hide Owners, WakeUps, RefsOk, Served, MaySleep, TsOk;
    RefsJoin(s.mem, s.thr, t, s'.thr[t], a);
    TransfersSame(p, s.mem.ts, s.thr, t, s'.thr[t]);
    SameList(s.mem.tb, s'.mem.tb);
    OwnersSame(p, s, s', t);
    JoinWakes(p, s, s', t, a);
    JoinRest(p, s, s', t, a);
  }

  lemma JoinRest(p: Params, s: State, s': State, t: Tid, a: Aid)
    requires p.blksz > 0 && WaitsOk(p, s.mem.tb, s.thr) && AttachesOk(p, s.mem, s.thr) && PointersOk(s.mem) && ThreadStep(s, s', t)
    requires a in s.mem.tb.heap && s'.mem == s.mem.(tb := RefTracker(s.mem.tb, a))
    requires WaitOn(s'.thr[t]) == Some(a) && s.mem.tb.heap[a].blk == Cur(p, s'.thr[t])
    requires !HasTs(s.thr[t]) && Transfers(p, s.mem.ts, s.thr)
    ensures WaitsOk(p, s'.mem.tb, s'.thr) && AttachesOk(p, s'.mem, s'.thr) && PointersOk(s'.mem)
  {
    hide TsOk;
  }

  lemma JoinWakes(p: Params, s: State, s': State, t: Tid, a: Aid)
    requires p.blksz > 0 && WakeUps(p, s) && ThreadStep(s, s', t) && MaySleep(p, s', t)
    requires a in s.mem.tb.heap && s'.mem == s.mem.(tb := RefTracker(s.mem.tb, a))
    ensures WakeUps(p, s')
  {
    hide WakeUps, Served, WaitOn;
    forall x: nat | x in s.mem.tb.list
      ensures Calm(s, s', x)
    {
    }
    WakeKeeps(p, s, s', t);
  }

  lemma LeaveMem(p: Params, s: State, s': State, t: Tid, a: Aid)
    requires p.blksz > 0 && MemInv(p, s) && ThreadStep(s, s', t)
    requires s'.mem == s.mem.(tb := UnrefTracker(s.mem.tb, a))
    requires var l, l' := s.thr[t], s'.thr[t];
             WaitOn(l) == Some(a) && WaitOn(l').None? && !HasTs(l) && !HasTs(l') && Own(p, l) == Own(p, l')
    ensures MemInv(p, s')
  {
    hide Owners, WakeUps, RefsOk, Served, TsOk;
    RefsLeave(s.mem, s.thr, t, s'.thr[t], a);
    TransfersSame(p, s.mem.ts, s.thr, t, s'.thr[t]);
    SameList(s.mem.tb, s'.mem.tb);
    OwnersSame(p, s, s', t);
    LeaveWakes(p, s, s', t, a);
    LeaveRest(p, s, s', t, a);
  }

  lemma LeaveWakes(p: Params, s: State, s': State, t: Tid, a: Aid)
    requires p.blksz > 0 && WakeUps(p, s) && ThreadStep(s, s', t) && WaitOn(s'.thr[t]).None?
    requires a in s.mem.tb.heap && (a in s.mem.tb.list ==> s.mem.tb.heap[a].refs > 1)
    requires s'.mem == s.mem.(tb := UnrefTracker(s.mem.tb, a))
    ensures WakeUps(p, s')
  {
    hide WakeUps, Served, WaitOn;
    forall x: nat | x in s.mem.tb.list
      ensures Calm(s, s', x)
    {
    }
    WakeKeeps(p, s, s', t);
  }

  lemma LeaveRest(p: Params, s: State, s': State, t: Tid, a: Aid)
    requires p.blksz > 0 && WaitsOk(p, s.mem.tb, s.thr) && AttachesOk(p, s.mem, s.thr) && PointersOk(s.mem) && ThreadStep(s, s', t)
    requires a in s.mem.tb.heap && s'.mem == s.mem.(tb := UnrefTracker(s.mem.tb, a)) && WaitOn(s'.thr[t]).None?
    requires s.mem.tb.heap[a].refs == 1 ==> WaitersOn(s.thr, a) == {t} && AttachedTo(s.mem.ts, a) == {}
    requires !HasTs(s.thr[t]) && Transfers(p, s.mem.ts, s.thr)
    ensures WaitsOk(p, s'.mem.tb, s'.thr) && AttachesOk(p, s'.mem, s'.thr) && PointersOk(s'.mem)
  {
    hide TsOk;
    forall u | u in s'.thr && WaitOn(s'.thr[u]).Some?
      ensures WaitOn(s'.thr[u]).value in s'.mem.tb.heap && s'.mem.tb.heap[WaitOn(s'.thr[u]).value].blk == Cur(p, s'.thr[u])
    {
      assert u in WaitersOn(s.thr, WaitOn(s.thr[u]).value);
    }
    forall u | u in s'.mem.ts && u in s'.thr
      ensures s'.mem.ts[u].ad.Some?
      ensures s'.mem.ts[u].ad.value in s'.mem.tb.heap && s'.mem.tb.heap[s'.mem.ts[u].ad.value].blk == Cur(p, s'.thr[u])
    {
      assert u in AttachedTo(s.mem.ts, s.mem.ts[u].ad.value);
    }
  }

  // ----- a tracker is added and removed by its owner -----

  lemma RefsAdd(p: Params, mem: Mem, thr: map<Tid, Local>, t: Tid, l: Local, a: Aid, b: nat)
    requires p.blksz > 0 && Refs(mem, thr) && WaitsOk(p, mem.tb, thr) && AttachesOk(p, mem, thr) && ListOk(mem.tb)
    requires (forall u :: u in mem.ts ==> u in thr)
    requires a !in mem.tb.heap && t in thr && WaitOn(thr[t]).None? && WaitOn(l).None?
    ensures Refs(mem.(tb := AddTracker(mem.tb, a, b)), thr[t := l])
  {
    WaitersSame(thr, t, l);
    var tb' := AddTracker(mem.tb, a, b);
    forall x | x in tb'.heap
      ensures RefsOk(tb', thr[t := l], mem.ts, x)
    {
      if x == a {
        assert WaitersOn(thr, a) == {};
        assert AttachedTo(mem.ts, a) == {};
        assert tb'.list[0] == a;
      } else {
        assert RefsOk(mem.tb, thr, mem.ts, x);
        assert x in tb'.list <==> x in mem.tb.list;
      }
    }
  }

  lemma OwnersAdd(p: Params, s: State, s': State, t: Tid, a: Aid, b: nat)
    requires p.blksz > 0 && Owners(p, s) && ThreadStep(s, s', t) && ListOk(s.mem.tb)
    requires a !in s.mem.tb.heap && s'.mem.tb == AddTracker(s.mem.tb, a, b) && !Tracked(s.mem.tb, b)
    requires Own(p, s.thr[t]).None? && Own(p, s'.thr[t]) == Some(b)
    ensures Owners(p, s')
  {
    AddSpec(s.mem.tb, a, b);
    forall x | x in s'.mem.tb.list && x in s'.mem.tb.heap
      ensures Owned(p, s', s'.mem.tb.heap[x].blk)
    {
      if x == a {
        assert Own(p, s'.thr[t]) == Some(b);
      } else {
        assert x in s.mem.tb.list;
        var c := s.mem.tb.heap[x].blk;
        assert Owned(p, s, c);
        var u :| u in s.thr && Own(p, s.thr[u]) == Some(c);
        assert u in s'.thr && Own(p, s'.thr[u]) == Some(c);
      }
    }
  }

  lemma AddWakes(p: Params, s: State, s': State, t: Tid, a: Aid, b: nat)
    requires p.blksz > 0 && WakeUps(p, s) && ThreadStep(s, s', t) && WaitOn(s'.thr[t]).None?
    requires a !in s.mem.tb.heap && s'.mem == s.mem.(tb := AddTracker(s.mem.tb, a, b)) && ListOk(s.mem.tb)
    ensures WakeUps(p, s')
  {
    hide WakeUps, Served, WaitOn;
    forall x: nat | x in s.mem.tb.list
      ensures Calm(s, s', x)
    {
      assert x in s'.mem.tb.list;
    }
    WakeKeeps(p, s, s', t);
  }

  lemma AddMem(p: Params, s: State, s': State, t: Tid, a: Aid, b: nat)
    requires p.blksz > 0 && MemInv(p, s) && ThreadStep(s, s', t)
    requires a !in s.mem.tb.heap && s'.mem == s.mem.(tb := AddTracker(s.mem.tb, a, b)) && !Tracked(s.mem.tb, b)
    requires var l, l' := s.thr[t], s'.thr[t];
             && WaitOn(l).None? && WaitOn(l').None? && !HasTs(l) && !HasTs(l')
             && Own(p, l).None? && Own(p, l') == Some(b)
    ensures MemInv(p, s')
  {
    hide Owners, WakeUps, RefsOk, Served, TsOk, Tracked, AddTracker;
    RefsAdd(p, s.mem, s.thr, t, s'.thr[t], a, b);
    TransfersSame(p, s.mem.ts, s.thr, t, s'.thr[t]);
    AddSpec(s.mem.tb, a, b);
    OwnersAdd(p, s, s', t, a, b);
    AddWakes(p, s, s', t, a, b);
    AddRest(p, s, s', t, a, b);
  }

  lemma AddRest(p: Params, s: State, s': State, t: Tid, a: Aid, b: nat)
    requires p.blksz > 0 && WaitsOk(p, s.mem.tb, s.thr) && AttachesOk(p, s.mem, s.thr) && PointersOk(s.mem) && ThreadStep(s, s', t)
    requires ListOk(s.mem.tb) && a !in s.mem.tb.heap && s'.mem == s.mem.(tb := AddTracker(s.mem.tb, a, b))
    requires !HasTs(s.thr[t]) && WaitOn(s'.thr[t]).None? && Transfers(p, s.mem.ts, s.thr)
    ensures WaitsOk(p, s'.mem.tb, s'.thr) && AttachesOk(p, s'.mem, s'.thr) && PointersOk(s'.mem)
  {
    hide TsOk;
  }

  lemma RefsRemove(mem: Mem, thr: map<Tid, Local>, t: Tid, l: Local, b: nat)
    requires Refs(mem, thr) && ListOk(mem.tb) && Tracked(mem.tb, b)
    requires t in thr && WaitOn(thr[t]).None? && WaitOn(l).None?
    ensures Refs(mem.(tb := RemoveTracker(mem.tb, b)), thr[t := l])
    ensures var a := FindTracker(mem.tb, b);
            a.Some? && a.value in mem.tb.heap
            && (mem.tb.heap[a.value].refs == 1 ==> WaitersOn(thr, a.value) == {} && AttachedTo(mem.ts, a.value) == {})
  {
    WaitersSame(thr, t, l);
    RemoveSpec(mem.tb, b);
    var a := FindTracker(mem.tb, b).value;
    assert RefsOk(mem.tb, thr, mem.ts, a);
    var tb' := RemoveTracker(mem.tb, b);
    forall x | x in tb'.heap
      ensures RefsOk(tb', thr[t := l], mem.ts, x)
    {
      assert RefsOk(mem.tb, thr, mem.ts, x);
    }
  }

  lemma OwnersRemove(p: Params, s: State, s': State, t: Tid, b: nat)
    requires p.blksz > 0 && Owners(p, s) && ThreadStep(s, s', t) && ListOk(s.mem.tb)
    requires s'.mem.tb == RemoveTracker(s.mem.tb, b)
    requires Own(p, s.thr[t]) == Some(b) && Own(p, s'.thr[t]).None?
    ensures Owners(p, s')
  {
    RemoveSpec(s.mem.tb, b);
    forall x | x in s'.mem.tb.list && x in s'.mem.tb.heap
      ensures Owned(p, s', s'.mem.tb.heap[x].blk)
    {
      var c := s.mem.tb.heap[x].blk;
      assert Owned(p, s, c);
      var u :| u in s.thr && Own(p, s.thr[u]) == Some(c);
      assert u in s'.thr && Own(p, s'.thr[u]) == Some(c);
    }
  }

  lemma RemoveWakes(p: Params, s: State, s': State, t: Tid, b: nat)
    requires p.blksz > 0 && WakeUps(p, s) && ThreadStep(s, s', t) && WaitOn(s'.thr[t]).None? && ListOk(s.mem.tb)
    requires Tracked(s.mem.tb, b) && s'.mem == s.mem.(tb := RemoveTracker(s.mem.tb, b))
    requires FindTracker(s.mem.tb, b).Some? ==> WaitersOn(s.thr, FindTracker(s.mem.tb, b).value) <= s'.sig
    ensures WakeUps(p, s')
  {
    hide WakeUps, Served, WaitOn, WaitersOn;
    RemoveSpec(s.mem.tb, b);
    var a := FindTracker(s.mem.tb, b).value;
    forall x: nat | x in s.mem.tb.list
      ensures Calm(s, s', x) || WaitersOn(s.thr, x) <= s'.sig
    {
      if x != a {
        assert At(s'.mem.tb, x) == At(s.mem.tb, x);
      }
    }
    WakeKeeps(p, s, s', t);
  }

  lemma RemoveRest(p: Params, s: State, s': State, t: Tid, b: nat)
    requires p.blksz > 0 && WaitsOk(p, s.mem.tb, s.thr) && AttachesOk(p, s.mem, s.thr) && PointersOk(s.mem) && ThreadStep(s, s', t)
    requires ListOk(s.mem.tb) && Tracked(s.mem.tb, b) && s'.mem == s.mem.(tb := RemoveTracker(s.mem.tb, b))
    requires var a := FindTracker(s.mem.tb, b);
             a.Some? && a.value in s.mem.tb.heap
             && (s.mem.tb.heap[a.value].refs == 1 ==> WaitersOn(s.thr, a.value) == {} && AttachedTo(s.mem.ts, a.value) == {})
    requires !HasTs(s.thr[t]) && WaitOn(s'.thr[t]).None? && Transfers(p, s.mem.ts, s.thr)
    ensures WaitsOk(p, s'.mem.tb, s'.thr) && AttachesOk(p, s'.mem, s'.thr) && PointersOk(s'.mem)
  {
    hide TsOk, RemoveTracker, FindTracker, Tracked, Cur, WaitOn, HasTs;
    RemoveSpec(s.mem.tb, b);
    forall u | u in s'.thr && WaitOn(s'.thr[u]).Some?
      ensures WaitOn(s'.thr[u]).value in s'.mem.tb.heap && s'.mem.tb.heap[WaitOn(s'.thr[u]).value].blk == Cur(p, s'.thr[u])
    {
      assert u in WaitersOn(s.thr, WaitOn(s.thr[u]).value);
    }
    forall u | u in s'.mem.ts && u in s'.thr
      ensures s'.mem.ts[u].ad.Some?
      ensures s'.mem.ts[u].ad.value in s'.mem.tb.heap && s'.mem.tb.heap[s'.mem.ts[u].ad.value].blk == Cur(p, s'.thr[u])
    {
      assert u in AttachedTo(s.mem.ts, s.mem.ts[u].ad.value);
    }
  }

  lemma RemoveMem(p: Params, s: State, s': State, t: Tid, b: nat)
    requires p.blksz > 0 && MemInv(p, s) && ThreadStep(s, s', t)
    requires s'.mem == s.mem.(tb := RemoveTracker(s.mem.tb, b))
    requires FindTracker(s.mem.tb, b).Some? ==> WaitersOn(s.thr, FindTracker(s.mem.tb, b).value) <= s'.sig
    requires var l, l' := s.thr[t], s'.thr[t];
             && WaitOn(l).None? && WaitOn(l').None? && !HasTs(l) && !HasTs(l')
             && Own(p, l) == Some(b) && Own(p, l').None?
    ensures MemInv(p, s')
  {
    hide WakeUps, RefsOk, Served, TsOk, Tracked, RemoveTracker, FindTracker, WaitersOn, PointersOk, WaitsOk, AttachesOk, Owned;
    assert Tracked(s.mem.tb, b);
    RefsRemove(s.mem, s.thr, t, s'.thr[t], b);
    TransfersSame(p, s.mem.ts, s.thr, t, s'.thr[t]);
    RemoveSpec(s.mem.tb, b);
    OwnersRemove(p, s, s', t, b);
    RemoveWakes(p, s, s', t, b);
    RemoveRest(p, s, s', t, b);
  }

  // ----- a transfer structure is attached and detached by its thread -----

  lemma AttachChange(ts: map<Tid, Ts>, t: Tid, u: Ts)
    ensures forall a: nat :: AttachedTo(ts[t := u], a)
                             == if u.ad == Some(a) then AttachedTo(ts, a) + {t} else AttachedTo(ts, a) - {t}
  {
  }

  lemma RefsAttach(mem: Mem, thr: map<Tid, Local>, t: Tid, l: Local, a: Aid, u: Ts)
    requires Refs(mem, thr) && t in thr && WaitOn(thr[t]).None? && WaitOn(l).None?
    requires t !in mem.ts && a in mem.tb.heap && u.ad == Some(a)
    ensures Refs(Mem(AttachTs(mem.tb, a, t), mem.ts[t := u]), thr[t := l])
  {
    hide RefsOk, WaitersOn, AttachedTo, WaitOn;
    WaitersSame(thr, t, l);
    AttachChange(mem.ts, t, u);
    var tb' := AttachTs(mem.tb, a, t);
    assert tb'.heap.Keys == mem.tb.heap.Keys;
    hide AttachTs;
    forall x | x in tb'.heap
      ensures RefsOk(tb', thr[t := l], mem.ts[t := u], x)
    {
      NotAttached(mem.ts, t, x);
      AttachOne(mem, thr, thr[t := l], mem.ts[t := u], t, a, x);
    }
  }

  lemma NotAttached(ts: map<Tid, Ts>, t: Tid, x: Aid)
    requires t !in ts
    ensures t !in AttachedTo(ts, x) && AttachedTo(ts, x) - {t} == AttachedTo(ts, x)
  {
  }

  lemma AttachOne(mem: Mem, thr: map<Tid, Local>, thr': map<Tid, Local>, ts': map<Tid, Ts>, t: Tid, a: Aid, x: Aid)
    requires a in mem.tb.heap && x in mem.tb.heap && RefsOk(mem.tb, thr, mem.ts, x) && WaitersOn(thr', x) == WaitersOn(thr, x)
    requires t !in AttachedTo(mem.ts, x) && AttachedTo(ts', x) == AttachedTo(mem.ts, x) + (if x == a then {t} else {})
    ensures RefsOk(AttachTs(mem.tb, a, t), thr', ts', x)
  {
    hide WaitersOn, AttachedTo;
    Card(AttachedTo(mem.ts, x), t);
  }

  lemma AttachWakes(p: Params, s: State, s': State, t: Tid, a: Aid, u: Ts)
    requires p.blksz > 0 && WakeUps(p, s) && ThreadStep(s, s', t) && WaitOn(s'.thr[t]).None? && PointersOk(s.mem)
    requires a in s.mem.tb.heap && t !in s.mem.ts
    requires s'.mem == Mem(AttachTs(s.mem.tb, a, t), s.mem.ts[t := u]) && WaitersOn(s.thr, a) <= s'.sig
    requires forall x: nat :: x in s.mem.tb.list ==> x in s.mem.tb.heap
    ensures WakeUps(p, s')
  {
    hide WakeUps, Served, WaitOn, WaitersOn;
    forall x: nat | x in s.mem.tb.list
      ensures Calm(s, s', x) || WaitersOn(s.thr, x) <= s'.sig
    {
      if x != a {
        assert At(s'.mem.tb, x) == At(s.mem.tb, x);
      }
    }
    WakeKeeps(p, s, s', t);
  }

  lemma AttachRest(p: Params, s: State, s': State, t: Tid, a: Aid, u: Ts)
    requires p.blksz > 0 && WaitsOk(p, s.mem.tb, s.thr) && AttachesOk(p, s.mem, s.thr) && PointersOk(s.mem) && ThreadStep(s, s', t)
    requires a in s.mem.tb.heap && t !in s.mem.ts && u.ad == Some(a)
    requires s'.mem == Mem(AttachTs(s.mem.tb, a, t), s.mem.ts[t := u]) && WaitOn(s'.thr[t]).None?
    requires s.mem.tb.heap[a].blk == Cur(p, s'.thr[t])
    ensures WaitsOk(p, s'.mem.tb, s'.thr) && AttachesOk(p, s'.mem, s'.thr) && PointersOk(s'.mem)
  {
  }

  lemma AttachTransfers(p: Params, ts: map<Tid, Ts>, thr: map<Tid, Local>, t: Tid, l: Local, u: Ts)
    requires p.blksz > 0 && Transfers(p, ts, thr) && t in thr && HasTs(l) && TsOk(p, l, u)
    ensures Transfers(p, ts[t := u], thr[t := l])
  {
    hide TsOk;
  }

  lemma AttachMem(p: Params, s: State, s': State, t: Tid, a: Aid, u: Ts)
    requires p.blksz > 0 && MemInv(p, s) && ThreadStep(s, s', t)
    requires a in s.mem.tb.heap && t !in s.mem.ts && u.ad == Some(a) && s.mem.tb.heap[a].blk == Cur(p, s'.thr[t])
    requires s'.mem == Mem(AttachTs(s.mem.tb, a, t), s.mem.ts[t := u]) && WaitersOn(s.thr, a) <= s'.sig
    requires var l, l' := s.thr[t], s'.thr[t];
             && WaitOn(l).None? && WaitOn(l').None? && HasTs(l') && TsOk(p, l', u) && Own(p, l') == Own(p, l)
    ensures MemInv(p, s')
  {
    hide Owners, WakeUps, RefsOk, Served, TsOk, WaitersOn, PointersOk, WaitsOk, AttachesOk, Transfers;
    RefsAttach(s.mem, s.thr, t, s'.thr[t], a, u);
    AttachTransfers(p, s.mem.ts, s.thr, t, s'.thr[t], u);
    SameList(s.mem.tb, s'.mem.tb);
    OwnersSame(p, s, s', t);
    AttachWakes(p, s, s', t, a, u);
    AttachRest(p, s, s', t, a, u);
  }

  /** The tracker list after Link_download_finish_transfer, spelled out. */
  lemma DetachSpec(tb: Table, b: nat, t: Tid, a: Aid)
    requires ListOk(tb) && a in tb.heap && tb.heap[a].blk == b
    requires a in tb.list ==> tb.heap[a].refs > 1
    ensures var tb' := DetachTs(tb, b, t, Some(a));
            && tb'.list == tb.list
            && (forall x :: x in tb'.heap ==> x in tb.heap)
            && (forall x :: x in tb.heap && x !in tb'.heap ==> x == a)
            && (a !in tb'.heap <==> tb.heap[a].refs == 1)
            && (forall x :: x in tb'.heap ==> && tb'.heap[x].blk == tb.heap[x].blk && tb'.heap[x].unlinked == tb.heap[x].unlinked
                                              && tb'.heap[x].refs == tb.heap[x].refs - Bit(x == a)
                                              && (tb'.heap[x].ts == tb.heap[x].ts || tb'.heap[x].ts.None?))
            && (a in tb.list ==> a in tb'.heap && tb'.heap[a].ts != Some(t))
  {
    FoundIs(tb, b);
  }

  lemma RefsDetach(mem: Mem, thr: map<Tid, Local>, t: Tid, l: Local, b: nat, a: Aid)
    requires Refs(mem, thr) && ListOk(mem.tb) && t in thr && WaitOn(thr[t]).None? && WaitOn(l).None?
    requires t in mem.ts && mem.ts[t].ad == Some(a) && a in mem.tb.heap && mem.tb.heap[a].blk == b
    ensures a in mem.tb.list ==> mem.tb.heap[a].refs > 1
    ensures mem.tb.heap[a].refs == 1 ==> WaitersOn(thr, a) == {} && AttachedTo(mem.ts, a) == {t}
    ensures Refs(Mem(DetachTs(mem.tb, b, t, Some(a)), mem.ts - {t}), thr[t := l])
  {
    hide DetachTs;
    WaitersSame(thr, t, l);
    assert RefsOk(mem.tb, thr, mem.ts, a);
    assert t in AttachedTo(mem.ts, a);
    Card(AttachedTo(mem.ts, a), t);
    DetachSpec(mem.tb, b, t, a);
    var tb' := DetachTs(mem.tb, b, t, Some(a));
    forall x | x in tb'.heap
      ensures RefsOk(tb', thr[t := l], mem.ts - {t}, x)
    {
      assert RefsOk(mem.tb, thr, mem.ts, x);
      assert AttachedTo(mem.ts - {t}, x) == AttachedTo(mem.ts, x) - {t};
      assert x != a ==> t !in AttachedTo(mem.ts, x);
      Card(AttachedTo(mem.ts, x), t);
    }
  }

  lemma DetachWakes(p: Params, s: State, s': State, t: Tid, b: nat, a: Aid)
    requires p.blksz > 0 && WakeUps(p, s) && ThreadStep(s, s', t) && WaitOn(s'.thr[t]).None? && ListOk(s.mem.tb)
    requires a in s.mem.tb.heap && s.mem.tb.heap[a].blk == b && (a in s.mem.tb.list ==> s.mem.tb.heap[a].refs > 1)
    requires s'.mem == Mem(DetachTs(s.mem.tb, b, t, Some(a)), s.mem.ts - {t})
    ensures WakeUps(p, s')
  {
    hide WakeUps, Served, WaitOn, WaitersOn, DetachTs;
    DetachSpec(s.mem.tb, b, t, a);
    forall x: nat | x in s.mem.tb.list
      ensures Calm(s, s', x)
    {
      assert x in s'.mem.tb.heap;
    }
    WakeKeeps(p, s, s', t);
  }

  lemma DetachRest(p: Params, s: State, s': State, t: Tid, b: nat, a: Aid)
    requires p.blksz > 0 && WaitsOk(p, s.mem.tb, s.thr) && AttachesOk(p, s.mem, s.thr) && PointersOk(s.mem) && ThreadStep(s, s', t)
    requires ListOk(s.mem.tb) && a in s.mem.tb.heap && s.mem.tb.heap[a].blk == b && (a in s.mem.tb.list ==> s.mem.tb.heap[a].refs > 1)
    requires t in s.mem.ts && s.mem.ts[t].ad == Some(a)
    requires s.mem.tb.heap[a].refs == 1 ==> WaitersOn(s.thr, a) == {} && AttachedTo(s.mem.ts, a) == {t}
    requires s'.mem == Mem(DetachTs(s.mem.tb, b, t, Some(a)), s.mem.ts - {t}) && WaitOn(s'.thr[t]).None?
    ensures WaitsOk(p, s'.mem.tb, s'.thr) && AttachesOk(p, s'.mem, s'.thr) && PointersOk(s'.mem)
  {
    hide DetachTs;
    DetachSpec(s.mem.tb, b, t, a);
    forall u | u in s'.thr && WaitOn(s'.thr[u]).Some?
      ensures WaitOn(s'.thr[u]).value in s'.mem.tb.heap && s'.mem.tb.heap[WaitOn(s'.thr[u]).value].blk == Cur(p, s'.thr[u])
    {
      assert u in WaitersOn(s.thr, WaitOn(s.thr[u]).value);
    }
    forall u | u in s'.mem.ts && u in s'.thr
      ensures s'.mem.ts[u].ad.Some?
      ensures s'.mem.ts[u].ad.value in s'.mem.tb.heap && s'.mem.tb.heap[s'.mem.ts[u].ad.value].blk == Cur(p, s'.thr[u])
    {
      assert u in AttachedTo(s.mem.ts, s.mem.ts[u].ad.value);
    }
  }

  lemma DetachTransfers(p: Params, ts: map<Tid, Ts>, thr: map<Tid, Local>, t: Tid, l: Local)
    requires p.blksz > 0 && Transfers(p, ts, thr) && t in thr && !HasTs(l)
    ensures Transfers(p, ts - {t}, thr[t := l])
  {
    hide TsOk;
  }

  lemma DetachMem(p: Params, s: State, s': State, t: Tid, b: nat, a: Aid)
    requires p.blksz > 0 && MemInv(p, s) && ThreadStep(s, s', t)
    requires t in s.mem.ts && s.mem.ts[t].ad == Some(a) && b == Cur(p, s.thr[t])
    requires s'.mem == Mem(DetachTs(s.mem.tb, b, t, Some(a)), s.mem.ts - {t})
    requires var l, l' := s.thr[t], s'.thr[t];
             WaitOn(l).None? && WaitOn(l').None? && !HasTs(l') && Own(p, l') == Own(p, l)
    ensures MemInv(p, s')
  {
    hide Owners, WakeUps, RefsOk, Served, TsOk, WaitersOn, PointersOk, WaitsOk, Transfers, DetachTs;
    RefsDetach(s.mem, s.thr, t, s'.thr[t], b, a);
    DetachTransfers(p, s.mem.ts, s.thr, t, s'.thr[t]);
    DetachSpec(s.mem.tb, b, t, a);
    SameList(s.mem.tb, s'.mem.tb);
    OwnersSame(p, s, s', t);
    DetachWakes(p, s, s', t, b, a);
    DetachRest(p, s, s', t, b, a);
  }

  // ----- the network feeds or ends a transfer -----

  lemma FeedMem(p: Params, s: State, s': State, q: Tid, u: Ts)
    requires p.blksz > 0 && MemInv(p, s) && q in s.mem.ts && u.ad == s.mem.ts[q].ad && TsOk(p, s.thr[q], u)
    requires s'.thr == s.thr && s'.life.shutting == s.life.shutting && s.sig <= s'.sig
    requires s'.mem == s.mem.(ts := s.mem.ts[q := u])
    requires u.data == s.mem.ts[q].data || (u.ad.Some? ==> WaitersOn(s.thr, u.ad.value) <= s'.sig)
    ensures MemInv(p, s')
  {
    hide Owners, WakeUps, Served, TsOk, WaitersOn, RefsOk, NoRepeats, WaitsOk, AttachesOk;
    assert s'.thr == s.thr[q := s'.thr[q]];
    RefsFeed(s.mem, s.thr, q, u);
    OwnersSame(p, s, s', q);
    FeedWakes(p, s, s', q, u);
    FeedRest(p, s.mem, s.thr, q, u);
  }

  lemma FeedRest(p: Params, mem: Mem, thr: map<Tid, Local>, q: Tid, u: Ts)
    requires p.blksz > 0 && Transfers(p, mem.ts, thr) && WaitsOk(p, mem.tb, thr) && AttachesOk(p, mem, thr) && PointersOk(mem)
    requires q in mem.ts && u.ad == mem.ts[q].ad && TsOk(p, thr[q], u)
    ensures var mem' := mem.(ts := mem.ts[q := u]);
            Transfers(p, mem'.ts, thr) && WaitsOk(p, mem'.tb, thr) && AttachesOk(p, mem', thr) && PointersOk(mem')
  {
    hide TsOk;
  }

  lemma RefsFeed(mem: Mem, thr: map<Tid, Local>, q: Tid, u: Ts)
    requires Refs(mem, thr) && q in mem.ts && u.ad == mem.ts[q].ad
    ensures Refs(mem.(ts := mem.ts[q := u]), thr)
  {
    forall x | x in mem.tb.heap
      ensures RefsOk(mem.tb, thr, mem.ts[q := u], x)
    {
      assert RefsOk(mem.tb, thr, mem.ts, x);
      assert AttachedTo(mem.ts[q := u], x) == AttachedTo(mem.ts, x);
    }
  }

  lemma FeedWakes(p: Params, s: State, s': State, q: Tid, u: Ts)
    requires p.blksz > 0 && WakeUps(p, s) && PointersOk(s.mem) && q in s.mem.ts && q in s.thr
    requires s'.thr == s.thr && s'.life.shutting == s.life.shutting && s.sig <= s'.sig
    requires s'.mem == s.mem.(ts := s.mem.ts[q := u]) && u.ad == s.mem.ts[q].ad
    requires u.data == s.mem.ts[q].data || (u.ad.Some? ==> WaitersOn(s.thr, u.ad.value) <= s'.sig)
    requires forall x: nat :: x in s.mem.tb.list ==> x in s.mem.tb.heap
    ensures WakeUps(p, s')
  {
    hide WaitersOn;
    forall x: nat | x in s.mem.tb.list
      ensures Calm(s, s', x) || WaitersOn(s.thr, x) <= s'.sig
    {
    }
    forall v | v in s'.thr && WaitOn(s'.thr[v]).Some? && v !in s'.sig
      ensures WaitOn(s'.thr[v]).value in s'.mem.tb.list && !s'.life.shutting && !Served(p, s', v, WaitOn(s'.thr[v]).value)
    {
      var a := WaitOn(s.thr[v]).value;
      assert v in WaitersOn(s.thr, a) by {
        InWaiters(s.thr, v, a);
      }
    }
  }

  lemma InWaiters(thr: map<Tid, Local>, t: Tid, a: Aid)
    requires t in thr && WaitOn(thr[t]) == Some(a)
    ensures t in WaitersOn(thr, a)
  {
  }

  // ----- a launcher hands its tracker to the thread it creates -----

  lemma HandoverMem(p: Params, s: State, s': State, t: Tid, bg: Tid, child: Local)
    requires p.blksz > 0 && MemInv(p, s) && t in s.thr && bg !in s.thr && t in s'.thr
    requires s'.thr == s.thr[bg := child][t := s'.thr[t]] && s'.mem == s.mem
    requires s'.life.shutting == s.life.shutting && s.sig <= s'.sig
    requires WaitOn(child).None? && !HasTs(child) && Own(p, child) == Own(p, s.thr[t])
    requires var l, l' := s.thr[t], s'.thr[t];
             WaitOn(l).None? && WaitOn(l').None? && !HasTs(l) && !HasTs(l') && Own(p, l').None?
    ensures MemInv(p, s')
  {
    hide RefsOk, TsOk, ListOk, Served, Owners, WakeUps;
    HandoverRest(p, s, s', t, bg, child);
    HandoverWaiters(s.thr, s'.thr, t, bg, child);
    HandoverWakes(p, s, s', t, bg, child);
    OwnersMove(p, s, s', t, bg, child);
    hide Own, WaitersOn, Refs, WaitOn, HasTs, WaitsOk, AttachesOk, PointersOk, Transfers;
    RefsMove(s.mem, s.thr, s'.thr);
  }

  lemma HandoverRest(p: Params, s: State, s': State, t: Tid, bg: Tid, child: Local)
    requires p.blksz > 0 && Transfers(p, s.mem.ts, s.thr) && WaitsOk(p, s.mem.tb, s.thr) && AttachesOk(p, s.mem, s.thr)
    requires t in s.thr && bg !in s.thr && t in s'.thr && s'.thr == s.thr[bg := child][t := s'.thr[t]] && s'.mem == s.mem
    requires WaitOn(child).None? && !HasTs(child) && !HasTs(s.thr[t]) && WaitOn(s'.thr[t]).None? && !HasTs(s'.thr[t])
    ensures Transfers(p, s'.mem.ts, s'.thr) && WaitsOk(p, s'.mem.tb, s'.thr) && AttachesOk(p, s'.mem, s'.thr)
  {
    hide TsOk, Cur, WaitOn, HasTs;
  }

  lemma HandoverWaiters(thr: map<Tid, Local>, thr': map<Tid, Local>, t: Tid, bg: Tid, child: Local)
    requires t in thr && bg !in thr && t in thr' && thr' == thr[bg := child][t := thr'[t]]
    requires WaitOn(child).None? && WaitOn(thr[t]).None? && WaitOn(thr'[t]).None?
    ensures forall a: nat :: WaitersOn(thr', a) == WaitersOn(thr, a)
  {
  }

  lemma HandoverWakes(p: Params, s: State, s': State, t: Tid, bg: Tid, child: Local)
    requires p.blksz > 0 && WakeUps(p, s) && t in s.thr && bg !in s.thr && t in s'.thr
    requires s'.thr == s.thr[bg := child][t := s'.thr[t]] && s'.mem == s.mem
    requires s'.life.shutting == s.life.shutting && s.sig <= s'.sig
    requires WaitOn(child).None? && WaitOn(s'.thr[t]).None?
    ensures WakeUps(p, s')
  {
  }

  lemma RefsMove(mem: Mem, thr: map<Tid, Local>, thr': map<Tid, Local>)
    requires Refs(mem, thr) && forall a: nat :: WaitersOn(thr', a) == WaitersOn(thr, a)
    ensures Refs(mem, thr')
  {
    forall x | x in mem.tb.heap
      ensures RefsOk(mem.tb, thr', mem.ts, x)
    {
      assert RefsOk(mem.tb, thr, mem.ts, x);
    }
  }

  lemma OwnersMove(p: Params, s: State, s': State, t: Tid, bg: Tid, child: Local)
    requires p.blksz > 0 && Owners(p, s) && t in s.thr && bg !in s.thr && t in s'.thr
    requires s'.thr == s.thr[bg := child][t := s'.thr[t]] && s'.mem == s.mem
    requires Own(p, child) == Own(p, s.thr[t]) && Own(p, s'.thr[t]).None?
    ensures Owners(p, s')
  {
    hide Tracked;
    forall a | a in s'.mem.tb.list && a in s'.mem.tb.heap
      ensures Owned(p, s', s'.mem.tb.heap[a].blk)
    {
      var b := s.mem.tb.heap[a].blk;
      assert Owned(p, s, b);
      var u :| u in s.thr && Own(p, s.thr[u]) == Some(b);
      var v := if u == t then bg else u;
      assert v in s'.thr && Own(p, s'.thr[v]) == Some(b);
    }
  }
}
