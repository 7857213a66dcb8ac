/** The steps that are not a reader's or a downloader's own section: creating a thread, the network,
    the environment and closing. */
module CacheOther {
  import opened Prelude
  import opened Blocks
  import opened CacheState
  import opened CacheInv
  import opened CacheTable
  import opened CacheSteps
  import opened CacheMem
  import opened CachePieces
  import opened CacheKeep

  // ----- creating a background thread -----

  lemma SpawnBits(p: Params, l: Local)
    requires p.blksz > 0 && l.role.Reader? && l.pc.Spawn?
    ensures var c, l1, l2 := Child(p, l), l.(pc := EndPiece), l.(pc := Check);
            && HasSlot(l) && HasSlot(c) && !HasSlot(l1) && !HasSlot(l2)
            && Registered(l) && Registered(c) && !Registered(l1) && !Registered(l2)
            && WaitOn(l).None? && WaitOn(c).None? && WaitOn(l1).None? && WaitOn(l2).None?
            && !c.role.Closer? && !HasSlot(Dead()) && !Registered(Dead()) && WaitOn(Dead()).None?
  {
  }

  /** The new thread takes over the slot and the place in `waiters` of its launcher. */
  lemma SpawnViews(p: Params, s: State, t: Tid, bg: Tid)
    requires p.blksz > 0 && EnabledRead(p, s, t, ReadSpawn(bg))
    ensures var s' := DoSpawn(p, s, t, bg);
            && |SlotHolders(s'.thr)| == |SlotHolders(s.thr)| && |Waiting(s'.thr)| == |Waiting(s.thr)|
            && |Downloaders(s'.thr)| == |Downloaders(s.thr)| && ClosersAsleep(s'.thr) == ClosersAsleep(s.thr)
  {
    hide SlotHolders, Waiting, Downloaders, HasSlot, Registered, WaitOn, Child;
    var s' := DoSpawn(p, s, t, bg);
    SpawnBits(p, s.thr[t]);
    var c := Child(p, s.thr[t]);
    Sizes(s.thr, bg, c);
    Sizes(s.thr[bg := c], t, s'.thr[t]);
  }

  lemma SpawnCounts(p: Params, s: State, t: Tid, bg: Tid)
    requires p.blksz > 0 && EnabledRead(p, s, t, ReadSpawn(bg)) && WaiterCount(s) && SlotCount(p, s) && CloserWakeUp(s) && LocksCf(s)
    ensures var s' := DoSpawn(p, s, t, bg); WaiterCount(s') && SlotCount(p, s') && CloserWakeUp(s')
  {
    hide SlotHolders, Waiting, Downloaders, ClosersAsleep;
    SpawnViews(p, s, t, bg);
  }

  lemma SpawnLocks(p: Params, s: State, t: Tid, bg: Tid)
    requires p.blksz > 0 && EnabledRead(p, s, t, ReadSpawn(bg)) && LocksW(s) && LocksCf(s) && LocksDl(s) && NetOk(p, s)
    ensures var s' := DoSpawn(p, s, t, bg); LocksW(s') && LocksCf(s') && LocksDl(s') && NetOk(p, s')
  {
    SpawnMutexes(p, s, t, bg);
    SpawnNet(p, s, t, bg);
    hide LocksW, LocksCf, LocksDl, NetOk, DoSpawn, EnabledRead;
  }

  lemma SpawnMutexes(p: Params, s: State, t: Tid, bg: Tid)
    requires p.blksz > 0 && IsReader(s, t) && s.thr[t].pc.Spawn? && bg !in s.thr && LocksW(s) && LocksCf(s)
    ensures var s' := DoSpawn(p, s, t, bg); LocksW(s') && LocksCf(s')
  {
    hide Cur;
  }

  lemma SpawnNet(p: Params, s: State, t: Tid, bg: Tid)
    requires p.blksz > 0 && IsReader(s, t) && s.thr[t].pc.Spawn? && bg !in s.thr && LocksDl(s) && NetOk(p, s)
    ensures var s' := DoSpawn(p, s, t, bg); LocksDl(s') && NetOk(p, s')
  {
    hide Cur;
  }

  lemma SpawnPhases(p: Params, s: State, t: Tid, bg: Tid)
    requires p.blksz > 0 && EnabledRead(p, s, t, ReadSpawn(bg)) && Handles(s) && Phases(s) && LocksCf(s)
    ensures var s' := DoSpawn(p, s, t, bg); Handles(s') && Phases(s')
  {
    var s' := DoSpawn(p, s, t, bg);
    assert ClosersWaiting(s'.thr) == ClosersWaiting(s.thr);
    assert Active(s.thr[t]);
  }

  lemma SpawnWork(p: Params, s: State, t: Tid, bg: Tid)
    requires p.blksz > 0 && EnabledRead(p, s, t, ReadSpawn(bg)) && MissOk(p, s.file.seg, s.thr[t])
    ensures var l' := DoSpawn(p, s, t, bg).thr[t];
            var c := Child(p, s.thr[t]);
            && MissOk(p, s.file.seg, l') && MissOk(p, s.file.seg, c)
            && WaitOn(c).None? && !HasTs(c) && Own(p, c) == Own(p, s.thr[t])
            && WaitOn(l').None? && WaitOn(s.thr[t]).None? && !HasTs(l') && !HasTs(s.thr[t]) && Own(p, l').None?
  {
  }

  lemma SpawnLocals(p: Params, s: State, t: Tid, bg: Tid)
    requires p.blksz > 0 && EnabledRead(p, s, t, ReadSpawn(bg)) && LocalOk(p, s.thr[t])
    ensures LocalOk(p, DoSpawn(p, s, t, bg).thr[t])
  {
    hide LocalOk;
    Moved(p, s.thr[t], if s.thr[t].pc.ahead then EndPiece else Check);
  }

  lemma ChildLocal(p: Params, l: Local)
    requires p.blksz > 0 && LocalOk(p, l) && l.role.Reader? && l.pc.Spawn?
    ensures LocalOk(p, Child(p, l))
  {
    PieceInBlock(p, l);
    LoNext(p, Cur(p, l));
  }

  /** The new thread has the launcher's slot, its tracker and its place in `waiters`, and the launcher no
      longer has them; nothing else is taken or given back. */
  ghost predicate HandsOver(p: Params, s: State, s': State, t: Tid, bg: Tid)
    requires p.blksz > 0
  {
    && t in s.thr && t in s'.thr && bg in s'.thr
    && HasSlot(s.thr[t]) && HasSlot(s'.thr[bg]) && !HasSlot(s'.thr[t])
    && Registered(s.thr[t]) && Registered(s'.thr[bg]) && !Registered(s'.thr[t])
    && Own(p, s.thr[t]).Some? && Own(p, s'.thr[bg]) == Own(p, s.thr[t]) && Own(p, s'.thr[t]).None?
    && s'.sem == s.sem && s'.waiters == s.waiters && s'.mem == s.mem
  }

  lemma SpawnHandsOver(p: Params, s: State, t: Tid, bg: Tid)
    requires p.blksz > 0 && EnabledRead(p, s, t, ReadSpawn(bg))
    ensures HandsOver(p, s, DoSpawn(p, s, t, bg), t, bg)
  {
  }

  lemma SpawnKeeps(p: Params, s: State, t: Tid, act: ReadAct, seg0: seq<bool>)
    requires p.blksz > 0 && Core(p, s, seg0) && EnabledRead(p, s, t, act) && act.ReadSpawn?
    ensures Core(p, EffectRead(p, s, t, act), seg0)
  {
    hide LocksW, LocksCf, LocksDl, NetOk, WaiterCount, SlotCount, CloserWakeUp, Handles, Phases, MemInv, Coherent, LogOk, LocalOk, MissOk, Child;
    var s' := EffectRead(p, s, t, act);
    SpawnCounts(p, s, t, act.bg);
    SpawnLocks(p, s, t, act.bg);
    SpawnPhases(p, s, t, act.bg);
    SpawnLocals(p, s, t, act.bg);
    SpawnWork(p, s, t, act.bg);
    ChildLocal(p, s.thr[t]);
    HandoverMem(p, s, s', t, act.bg, Child(p, s.thr[t]));
  }

  lemma KeepSpawn(p: Params, s: State, t: Tid, act: ReadAct, seg0: seq<bool>)
    requires p.blksz > 0 && Core(p, s, seg0) && EnabledRead(p, s, t, act) && act.ReadSpawn?
    ensures Core(p, EffectRead(p, s, t, act), seg0) && HandsOver(p, s, EffectRead(p, s, t, act), t, act.bg)
  {
    hide Core, HandsOver, DoSpawn;
    SpawnKeeps(p, s, t, act, seg0);
    SpawnHandsOver(p, s, t, act.bg);
  }

  /** Every step of a reader keeps the invariant. */
  lemma ReadStep(p: Params, s: State, t: Tid, act: ReadAct, seg0: seq<bool>)
    requires p.blksz > 0 && Core(p, s, seg0) && EnabledRead(p, s, t, act)
    ensures Core(p, EffectRead(p, s, t, act), seg0)
  {
    hide Core, EffectRead, EnabledRead;
    match act
    case ReadCheck(_) | ReadRecheck(_) => KeepCheck(p, s, t, act, seg0);
    case ReadFind => KeepFind(p, s, t, act, seg0);
    case ReadTrySlot | ReadTryAhead | ReadBackOff | ReadRegister | ReadPeek | ReadLockAhead => KeepMove(p, s, t, act, seg0);
    case ReadLaunch(_) | ReadSyncAdd(_) | ReadFindAhead(_) => KeepAdd(p, s, t, act, seg0);
    case ReadSpawn(_) => KeepSpawn(p, s, t, act, seg0);
    case ReadWake => KeepWake(p, s, t, act, seg0);
    case ReadStore(_) => KeepStore(p, s, t, act, seg0);
    case ReadUntrack => KeepUntrack(p, s, t, act, seg0);
    case ReadEndPiece => KeepEndPiece(p, s, t, act, seg0);
  }

  /** Every step of a download keeps the invariant. */
  lemma DownStep(p: Params, s: State, t: Tid, act: DownAct, seg0: seq<bool>)
    requires p.blksz > 0 && Core(p, s, seg0) && EnabledDown(s, t, act)
    ensures Core(p, EffectDown(p, s, t, act), seg0)
  {
    hide Core, EffectDown, EnabledDown;
    match act
    case DownAttach => KeepAttach(p, s, t, act, seg0);
    case DownAddHandle | DownLeave | DownPost => KeepDownMove(p, s, t, act, seg0);
    case DownDetach => KeepDetach(p, s, t, act, seg0);
    case DownStore(_) => KeepBgStore(p, s, t, act, seg0);
    case DownUntrack => KeepBgUntrack(p, s, t, act, seg0);
  }

  // ----- the network -----

  lemma Deliverable(p: Params, s: State, seg0: seq<bool>)
    requires p.blksz > 0 && Core(p, s, seg0) && s.lk.x.XCallback?
    ensures var q := s.lk.x.to;
            && q in s.mem.ts && q in s.thr && s.mem.ts[q].ad.Some? && s.mem.ts[q].on && s.thr[q].pc.Transfer?
            && Lo(p, Cur(p, s.thr[q])) + |s.mem.ts[q].data| + s.lk.x.n <= |p.remote|
            && |s.mem.ts[q].data| + s.lk.x.n <= Size(p, Cur(p, s.thr[q]))
            && TsOk(p, s.thr[q], s.mem.ts[q])
  {
    hide LocksW, LocksCf, LocksDl, WaiterCount, SlotCount, CloserWakeUp, Handles, Phases;
    hide FileInv, Locals, TsOk, ListOk, Owners, WakeUps, Refs, PointersOk, WaitsOk;
  }

  lemma NetCommon(p: Params, s: State, t: Tid, act: NetAct)
    requires p.blksz > 0 && EnabledNet(p, s, t, act) && CommonInv(p, s)
    requires act.NetDeliver? ==> s.lk.x.to in s.thr && s.lk.x.to in s.mem.ts
    ensures CommonInv(p, EffectNet(p, s, t, act))
  {
    hide LocksW, LocksCf, SlotCount, Handles, Phases, WaiterCount;
    var s' := EffectNet(p, s, t, act);
    assert s'.thr == s.thr && s'.life == s.life && s'.file == s.file && s'.waiters == s.waiters && s'.sem == s.sem
      && s'.lk.w == s.lk.w && s'.lk.cf == s.lk.cf;
    Unmoved(p, s, s');
  }

  lemma Unmoved(p: Params, s: State, s': State)
    requires s'.thr == s.thr && s'.life == s.life && s'.file == s.file && s'.waiters == s.waiters && s'.sem == s.sem
    requires s'.lk.w == s.lk.w && s'.lk.cf == s.lk.cf
    requires LocksW(s) && LocksCf(s) && SlotCount(p, s) && Handles(s) && Phases(s) && WaiterCount(s)
    ensures LocksW(s') && LocksCf(s') && SlotCount(p, s') && Handles(s') && Phases(s') && WaiterCount(s')
  {
  }

  lemma NetStep(p: Params, s: State, t: Tid, act: NetAct, seg0: seq<bool>)
    requires p.blksz > 0 && Core(p, s, seg0) && EnabledNet(p, s, t, act)
    ensures Core(p, EffectNet(p, s, t, act), seg0)
  {
    hide CommonInv, MemInv, Coherent, LogOk, Misses, Locals, TsOk, WaitersOn;
    var s' := EffectNet(p, s, t, act);
    if act.NetDeliver? {
      Deliverable(p, s, seg0);
      NetCommon(p, s, t, act);
      Appended(p, s.thr[s.lk.x.to], s.mem.ts[s.lk.x.to], s.lk.x.n);
      FeedMem(p, s, s', s.lk.x.to, s'.mem.ts[s.lk.x.to]);
    } else {
      NetCommon(p, s, t, act);
      if act.NetComplete? {
        NoTs(p, s, act.to);
        SameData(p, s.thr[act.to], s.mem.ts[act.to], s'.mem.ts[act.to]);
        FeedMem(p, s, s', act.to, s'.mem.ts[act.to]);
      } else {
        LocksOnly(p, s, s');
      }
    }
    assert Misses(p, s'.file.seg, s'.thr) && Locals(p, s') by {
      SameLocals(p, s, s');
    }
  }

  lemma SameLocals(p: Params, s: State, s': State)
    requires p.blksz > 0 && s'.thr == s.thr && Locals(p, s)
    ensures Locals(p, s')
  {
  }

  lemma Appended(p: Params, l: Local, u: Ts, n: nat)
    requires p.blksz > 0 && TsOk(p, l, u) && |u.data| + n <= Size(p, Cur(p, l))
    ensures var at := Lo(p, Cur(p, l)) + |u.data|;
            at + n <= |p.remote| && TsOk(p, l, u.(data := u.data + p.remote[at..at + n]))
  {
  }

  lemma SameData(p: Params, l: Local, u: Ts, u': Ts)
    requires p.blksz > 0 && TsOk(p, l, u) && u'.data == u.data
    ensures TsOk(p, l, u')
  {
  }

  lemma LocksOnly(p: Params, s: State, s': State)
    requires p.blksz > 0 && MemInv(p, s) && s'.mem == s.mem && s'.thr == s.thr && s'.life == s.life && s.sig <= s'.sig
    ensures MemInv(p, s')
  {
    hide Ledger, Transfers, ListOk;
    assert Ledger(p, s') by {
      LedgerOnly(p, s, s');
    }
  }

  lemma LedgerOnly(p: Params, s: State, s': State)
    requires p.blksz > 0 && Ledger(p, s) && s'.mem == s.mem && s'.thr == s.thr
    ensures Ledger(p, s')
  {
  }

  // ----- steps of threads that wait for nothing and own nothing -----

  /** The thread is new or is a closer, and touches no tracker. */
  ghost predicate Bystander(p: Params, l: Local)
    requires p.blksz > 0
  {
    WaitOn(l).None? && !HasTs(l) && Own(p, l).None? && !BeforeStore(l) && !SawMissing(l) && !l.pc.FindAhead?
  }

  ghost predicate BystanderStep(p: Params, s: State, s': State, t: Tid)
    requires p.blksz > 0
  {
    && t in s'.thr && s'.thr == s.thr[t := s'.thr[t]] && s'.mem == s.mem
    && s'.life.shutting == s.life.shutting && s.sig - {t} <= s'.sig
    && Bystander(p, Was(s, t)) && Bystander(p, s'.thr[t])
  }

  lemma BystanderRefs(p: Params, mem: Mem, thr: map<Tid, Local>, t: Tid, l: Local)
    requires p.blksz > 0 && Refs(mem, thr) && WaitOn(l).None? && (t in thr ==> WaitOn(thr[t]).None?)
    ensures Refs(mem, thr[t := l])
  {
    forall a: nat
      ensures WaitersOn(thr[t := l], a) == WaitersOn(thr, a)
    {
    }
    RefsMove(mem, thr, thr[t := l]);
  }

  lemma BystanderOwners(p: Params, s: State, s': State, t: Tid)
    requires p.blksz > 0 && Owners(p, s) && BystanderStep(p, s, s', t)
    ensures Owners(p, s')
  {
    hide Tracked;
    forall a | a in s'.mem.tb.list && a in s'.mem.tb.heap
      ensures Owned(p, s', s'.mem.tb.heap[a].blk)
    {
      var b := s.mem.tb.heap[a].blk;
      assert Owned(p, s, b);
      var u :| u in s.thr && Own(p, s.thr[u]) == Some(b);
      assert u in s'.thr && Own(p, s'.thr[u]) == Some(b);
    }
  }

  lemma BystanderRest(p: Params, s: State, s': State, t: Tid)
    requires p.blksz > 0 && BystanderStep(p, s, s', t)
    requires Transfers(p, s.mem.ts, s.thr) && WaitsOk(p, s.mem.tb, s.thr) && AttachesOk(p, s.mem, s.thr)
    ensures Transfers(p, s'.mem.ts, s'.thr) && WaitsOk(p, s'.mem.tb, s'.thr) && AttachesOk(p, s'.mem, s'.thr)
  {
    hide TsOk, Own, BeforeStore, SawMissing, Cur, WaitOn, HasTs;
  }

  lemma BystanderWakes(p: Params, s: State, s': State, t: Tid)
    requires p.blksz > 0 && WakeUps(p, s) && BystanderStep(p, s, s', t)
    ensures WakeUps(p, s')
  {
    hide Own, BeforeStore, SawMissing;
  }

  lemma BystanderMem(p: Params, s: State, s': State, t: Tid)
    requires p.blksz > 0 && MemInv(p, s) && BystanderStep(p, s, s', t)
    ensures MemInv(p, s')
  {
    hide Owners, WakeUps, Refs, PointersOk, WaitsOk, AttachesOk, Transfers, ListOk, Own, BeforeStore, SawMissing;
    BystanderRefs(p, s.mem, s.thr, t, s'.thr[t]);
    BystanderOwners(p, s, s', t);
    BystanderRest(p, s, s', t);
    BystanderWakes(p, s, s', t);
  }

  lemma BystanderLocals(p: Params, s: State, s': State, t: Tid)
    requires p.blksz > 0 && Locals(p, s) && Misses(p, s.file.seg, s.thr) && BystanderStep(p, s, s', t)
    requires LocalOk(p, s'.thr[t])
    ensures Locals(p, s') && Misses(p, s.file.seg, s'.thr)
  {
    hide LocalOk, Own;
  }
}
