/** FUSE opening and closing handles and starting reads, the steps of Cache_close and Cache_free, and
    with them the invariant over every step. */
module CacheClose {
  import opened Prelude
  import opened Blocks
  import opened CacheState
  import opened CacheInv
  import opened CacheTable
  import opened CacheSteps
  import opened CacheMem
  import opened CachePieces
  import opened CacheKeep
  import opened CacheOther

  // ----- taking dl_lock -----

  lemma LockDlStep(p: Params, s: State, t: Tid, seg0: seq<bool>)
    requires p.blksz > 0 && Core(p, s, seg0) && Enabled(p, s, t, LockDl)
    ensures Core(p, Effect(p, s, t, LockDl), seg0)
  {
    hide LocksW, LocksCf, SlotCount, Handles, Phases, WaiterCount, MemInv, Coherent, LogOk, Misses, Locals, ClosersAsleep;
    var s' := Effect(p, s, t, LockDl);
    Unmoved(p, s, s');
    LocksOnly(p, s, s');
    SameLocals(p, s, s');
  }

  // ----- the steps of FUSE and of closers, one group of invariants at a time -----

  /** Steps of FUSE and of closers leave readers, downloads and trackers as they are. */
  ghost predicate Aside(p: Params, s: State, s': State, t: Tid)
    requires p.blksz > 0
  {
    && BystanderStep(p, s, s', t)
    && !HasSlot(Was(s, t)) && !Registered(Was(s, t)) && !HasSlot(s'.thr[t]) && !Registered(s'.thr[t])
    && !HoldsW(Was(s, t)) && !HoldsW(s'.thr[t])
    && s'.waiters == s.waiters && s'.lk.w == s.lk.w && s'.lk.x == s.lk.x
    && (s'.lk.dl.None? || (s'.lk.dl == s.lk.dl && (t in s.thr ==> s.lk.dl != Some(t))))
    && !Was(s, t).pc.Transfer? && s'.file.seg == s.file.seg && s'.file.disk == s.file.disk && s'.file.log == s.file.log
  }

  lemma AsideLocks(p: Params, s: State, s': State, t: Tid)
    requires p.blksz > 0 && Aside(p, s, s', t) && LocksW(s) && LocksDl(s) && NetOk(p, s)
    ensures LocksW(s') && LocksDl(s') && NetOk(p, s')
  {
    hide Own, BeforeStore, SawMissing, HasTs;
  }

  lemma AsideWaiters(p: Params, s: State, s': State, t: Tid)
    requires p.blksz > 0 && Aside(p, s, s', t) && WaiterCount(s)
    ensures WaiterCount(s') && |SlotHolders(s'.thr)| == |SlotHolders(s.thr)|
  {
    hide Own, BeforeStore, SawMissing, HasTs, HasSlot, Registered, WaitOn, HoldsW, Waiting, Downloaders, SlotHolders;
    Sizes(s.thr, t, s'.thr[t]);
  }

  /** With locks and counters in order, such a step keeps the whole invariant. */
  lemma AsideKeeps(p: Params, s: State, s': State, t: Tid, seg0: seq<bool>)
    requires p.blksz > 0 && Core(p, s, seg0) && Aside(p, s, s', t) && LocalOk(p, s'.thr[t])
    requires LocksCf(s') && SlotCount(p, s') && CloserWakeUp(s') && Handles(s') && Phases(s') && Saved(s')
    ensures Core(p, s', seg0)
  {
    hide LocksW, LocksCf, LocksDl, NetOk, WaiterCount, SlotCount, CloserWakeUp, Handles, Phases, Saved;
    hide MemInv, Coherent, LogOk, Misses, Locals, LocalOk, Own, BeforeStore, SawMissing, HasTs, HasSlot, Registered, WaitOn, HoldsW;
    AsideLocks(p, s, s', t);
    AsideWaiters(p, s, s', t);
    BystanderMem(p, s, s', t);
    BystanderLocals(p, s, s', t);
    assert LogOk(s'.file, seg0) by {
      SameLog(s.file, s'.file, seg0);
    }
  }

  lemma SameLog(f: File, f': File, seg0: seq<bool>)
    requires LogOk(f, seg0) && f'.seg == f.seg && f'.log == f.log
    ensures LogOk(f', seg0)
  {
  }

  // ----- FUSE -----

  lemma CallStep(p: Params, s: State, t: Tid, act: EnvAct, seg0: seq<bool>)
    requires p.blksz > 0 && Core(p, s, seg0) && EnabledEnv(s, t, act) && act.CallRead?
    ensures Core(p, EffectEnv(p, s, t, act), seg0)
  {
    hide LocksW, LocksDl, NetOk, WaiterCount, MemInv, Coherent, LogOk, Misses, Locals;
    var s' := EffectEnv(p, s, t, act);
    FirstPiece(p, act.h, act.off, act.req);
    AsideWaiters(p, s, s', t);
    assert ClosersWaiting(s'.thr) == ClosersWaiting(s.thr) && ClosersAsleep(s'.thr) == ClosersAsleep(s.thr);
    assert s.life.opens > 0;
    AsideKeeps(p, s, s', t, seg0);
  }

  lemma OpenStep(p: Params, s: State, t: Tid, act: EnvAct, seg0: seq<bool>)
    requires p.blksz > 0 && Core(p, s, seg0) && EnabledEnv(s, t, act) && act.OpenHandle?
    ensures Core(p, EffectEnv(p, s, t, act), seg0)
  {
    hide LocksW, LocksDl, NetOk, WaiterCount, MemInv, Coherent, LogOk, Misses, Locals;
    var s' := EffectEnv(p, s, t, act);
    assert LocksW(s') && LocksDl(s') && NetOk(p, s') && WaiterCount(s') by {
      SameLocks(p, s, s');
    }
    assert MemInv(p, s') by {
      SameMem(p, s, s');
    }
    SameLocals(p, s, s');
  }

  lemma SameLocks(p: Params, s: State, s': State)
    requires p.blksz > 0 && LocksW(s) && LocksDl(s) && NetOk(p, s) && WaiterCount(s)
    requires s'.thr == s.thr && s'.lk == s.lk && s'.waiters == s.waiters && s.sig <= s'.sig && s'.mem == s.mem
    ensures LocksW(s') && LocksDl(s') && NetOk(p, s') && WaiterCount(s')
  {
  }

  lemma SameMem(p: Params, s: State, s': State)
    requires p.blksz > 0 && MemInv(p, s) && s'.thr == s.thr && s'.mem == s.mem && s.sig <= s'.sig
    requires s'.life.shutting == s.life.shutting
    ensures MemInv(p, s')
  {
    hide Transfers, ListOk;
    assert Ledger(p, s') by {
      LedgerOnly(p, s, s');
    }
  }

  lemma ReleaseAside(p: Params, s: State, t: Tid, act: EnvAct)
    requires p.blksz > 0 && EnabledEnv(s, t, act) && act.CloseHandle?
    ensures var s' := EffectEnv(p, s, t, act);
            Aside(p, s, s', t) && LocalOk(p, s'.thr[t]) && s'.file == s.file
  {
  }

  lemma ReleaseCounts(p: Params, s: State, t: Tid, act: EnvAct)
    requires p.blksz > 0 && EnabledEnv(s, t, act) && act.CloseHandle?
    requires LocksCf(s) && SlotCount(p, s) && CloserWakeUp(s) && Handles(s) && Phases(s)
    requires |SlotHolders(EffectEnv(p, s, t, act).thr)| == |SlotHolders(s.thr)|
    ensures var s' := EffectEnv(p, s, t, act);
            LocksCf(s') && SlotCount(p, s') && CloserWakeUp(s') && Handles(s') && Phases(s')
  {
    hide SlotHolders, Waiting, Downloaders;
    var s' := EffectEnv(p, s, t, act);
    assert ClosersAsleep(s'.thr) == ClosersAsleep(s.thr);
    assert s.life.opens > 0;
    Sizes(s.thr, t, s'.thr[t]);
  }

  lemma CloseHandleStep(p: Params, s: State, t: Tid, act: EnvAct, seg0: seq<bool>)
    requires p.blksz > 0 && Core(p, s, seg0) && EnabledEnv(s, t, act) && act.CloseHandle?
    ensures Core(p, EffectEnv(p, s, t, act), seg0)
  {
    hide LocksW, LocksCf, LocksDl, NetOk, WaiterCount, SlotCount, CloserWakeUp, Handles, Phases;
    hide MemInv, Coherent, LogOk, Misses, Locals, EffectEnv, EnabledEnv, Aside;
    var s' := EffectEnv(p, s, t, act);
    ReleaseAside(p, s, t, act);
    AsideWaiters(p, s, s', t);
    ReleaseCounts(p, s, t, act);
    AsideKeeps(p, s, s', t, seg0);
  }

  lemma SpuriousStep(p: Params, s: State, t: Tid, act: EnvAct, seg0: seq<bool>)
    requires p.blksz > 0 && Core(p, s, seg0) && EnabledEnv(s, t, act) && act.Spurious?
    ensures Core(p, EffectEnv(p, s, t, act), seg0)
  {
    hide LocksW, LocksDl, LocksCf, NetOk, WaiterCount, SlotCount, Handles, Phases, MemInv, Coherent, LogOk, Misses, Locals, ClosersAsleep;
    var s' := EffectEnv(p, s, t, act);
    SameLocks(p, s, s');
    SameMem(p, s, s');
    SameLocals(p, s, s');
    Unmoved(p, s, s');
  }

  lemma EnvStep(p: Params, s: State, t: Tid, act: EnvAct, seg0: seq<bool>)
    requires p.blksz > 0 && Core(p, s, seg0) && EnabledEnv(s, t, act)
    ensures Core(p, EffectEnv(p, s, t, act), seg0)
  {
    hide Core, EffectEnv, EnabledEnv;
    match act
    case CallRead(_, _, _) => CallStep(p, s, t, act, seg0);
    case OpenHandle(_) => OpenStep(p, s, t, act, seg0);
    case CloseHandle(_) => CloseHandleStep(p, s, t, act, seg0);
    case Spurious => SpuriousStep(p, s, t, act, seg0);
  }

  // ----- closing -----

  lemma CloserFacts(p: Params, s: State, t: Tid)
    requires p.blksz > 0 && LocksCf(s) && LocksDl(s) && NetOk(p, s) && IsCloser(s, t)
    ensures HoldsCf(s.thr[t]) ==> s.lk.cf == Some(t)
    ensures !PcWantsDl(s.thr[t]) ==> s.lk.dl != Some(t)
  {
  }

  /** The closing thread's own record, handles and phase, for one step of a closer. */
  lemma CloserEnters(p: Params, s: State, t: Tid, act: CloseAct)
    requires p.blksz > 0 && EnabledClose(p, s, t, act) && (act.LockCf? || act.TakeSlot?)
    requires LocksCf(s) && LocksDl(s) && NetOk(p, s)
    ensures Aside(p, s, EffectClose(p, s, t, act), t)
  {
    CloserFacts(p, s, t);
    hide LocksCf, LocksDl, NetOk;
  }

  lemma CloserLeaves(p: Params, s: State, t: Tid, act: CloseAct)
    requires p.blksz > 0 && EnabledClose(p, s, t, act) && (act.SaveBitmap? || act.FreeBitmap? || act.CloserWake?)
    requires LocksCf(s) && LocksDl(s) && NetOk(p, s)
    ensures Aside(p, s, EffectClose(p, s, t, act), t)
  {
    CloserFacts(p, s, t);
    hide LocksCf, LocksDl, NetOk;
  }

  lemma CloserMoves(p: Params, s: State, t: Tid, act: CloseAct)
    requires p.blksz > 0 && EnabledClose(p, s, t, act) && !act.ShutDown? && !act.Destroy?
    requires LocksCf(s) && LocksDl(s) && NetOk(p, s)
    ensures Aside(p, s, EffectClose(p, s, t, act), t)
  {
    hide LocksCf, LocksDl, NetOk, Aside, EffectClose, EnabledClose;
    if act.LockCf? || act.TakeSlot? {
      CloserEnters(p, s, t, act);
    } else {
      CloserLeaves(p, s, t, act);
    }
  }

  lemma CloserLocksCf(p: Params, s: State, t: Tid, act: CloseAct)
    requires p.blksz > 0 && EnabledClose(p, s, t, act) && !act.ShutDown? && !act.Destroy? && LocksCf(s)
    ensures LocksCf(EffectClose(p, s, t, act))
  {
  }

  lemma CloserSlots(p: Params, s: State, t: Tid, act: CloseAct)
    requires p.blksz > 0 && EnabledClose(p, s, t, act) && !act.ShutDown? && !act.Destroy?
    requires LocksCf(s) && SlotCount(p, s) && CloserWakeUp(s) && Phases(s)
    requires |SlotHolders(EffectClose(p, s, t, act).thr)| == |SlotHolders(s.thr)|
    ensures var s' := EffectClose(p, s, t, act); SlotCount(p, s') && CloserWakeUp(s')
  {
    hide SlotHolders;
  }

  lemma CloserPhases(p: Params, s: State, t: Tid, act: CloseAct)
    requires p.blksz > 0 && EnabledClose(p, s, t, act) && !act.ShutDown? && !act.Destroy?
    requires LocksCf(s) && Handles(s) && Phases(s) && Saved(s)
    ensures var s' := EffectClose(p, s, t, act); Handles(s') && Phases(s') && Saved(s')
  {
    hide SlotHolders, Waiting, Downloaders;
    Sizes(s.thr, t, EffectClose(p, s, t, act).thr[t]);
  }

  lemma CloserStep(p: Params, s: State, t: Tid, act: CloseAct, seg0: seq<bool>)
    requires p.blksz > 0 && Core(p, s, seg0) && EnabledClose(p, s, t, act) && !act.ShutDown? && !act.Destroy?
    ensures Core(p, EffectClose(p, s, t, act), seg0)
  {
    hide LocksW, LocksCf, LocksDl, NetOk, WaiterCount, SlotCount, CloserWakeUp, Handles, Phases, Saved;
    hide MemInv, Coherent, LogOk, Misses, Locals, Aside, SlotHolders;
    var s' := EffectClose(p, s, t, act);
    CloserMoves(p, s, t, act);
    CloserLocksCf(p, s, t, act);
    AsideWaiters(p, s, s', t);
    CloserSlots(p, s, t, act);
    CloserPhases(p, s, t, act);
    AsideKeeps(p, s, s', t, seg0);
  }

  /** Only closers are still running. */
  ghost predicate OnlyClosers(s: State) {
    forall t :: t in s.thr ==> s.thr[t].role.Closer? || s.thr[t].pc.Done?
  }

  lemma AllEnded(p: Params, s: State)
    requires p.blksz > 0 && Locals(p, s) && forall t :: t in s.thr && Active(s.thr[t]) ==> s.thr[t].role.Closer?
    ensures OnlyClosers(s)
  {
  }

  lemma Nothing(list: seq<Aid>)
    ensures list == [] || exists a :: a in list
  {
    if list != [] {
      assert list[0] in list;
    }
  }

  /** None of these threads owns a tracker, waits for one or has a transfer. */
  ghost predicate Idle(p: Params, s: State)
    requires p.blksz > 0
  {
    forall t :: t in s.thr ==> Own(p, s.thr[t]).None? && WaitOn(s.thr[t]).None? && !HasTs(s.thr[t])
  }

  lemma ClosersIdle(p: Params, s: State)
    requires p.blksz > 0 && OnlyClosers(s)
    ensures Idle(p, s)
  {
  }

  lemma AloneMem(p: Params, s: State)
    requires p.blksz > 0 && MemInv(p, s) && OnlyClosers(s)
    ensures s.mem == Mem(Table(map[], []), map[])
  {
    ClosersIdle(p, s);
    hide WakeUps, TsOk, WaitsOk, AttachesOk, PointersOk, OnlyClosers, Own, WaitOn, HasTs;
    assert forall b: nat :: !Owned(p, s, b);
    assert s.mem.ts == map[];
    assert forall a :: a !in s.mem.tb.list;
    forall a: nat
      ensures WaitersOn(s.thr, a) == {} && AttachedTo(s.mem.ts, a) == {}
    {
    }
    assert forall a :: a in s.mem.tb.heap ==> RefsOk(s.mem.tb, s.thr, s.mem.ts, a);
    assert s.mem.tb.heap == map[];
    Nothing(s.mem.tb.list);
  }

  lemma AloneLocks(p: Params, s: State)
    requires p.blksz > 0 && LocksW(s) && NetOk(p, s) && WaiterCount(s) && OnlyClosers(s)
    ensures s.waiters == 0 && s.lk.w.None? && s.lk.x.XFree?
  {
    assert Waiting(s.thr) == {} && Downloaders(s.thr) == {};
  }

  /** Once the closer has every slot it is alone: no tracker is listed or even allocated, nobody waits. */
  lemma Alone(p: Params, s: State, seg0: seq<bool>)
    requires p.blksz > 0 && Core(p, s, seg0)
    requires s.life.gone || (s.lk.cf.Some? && s.lk.cf.value in s.thr && Taken(p, s.thr[s.lk.cf.value]) == p.workers)
    ensures OnlyClosers(s)
    ensures s.mem == Mem(Table(map[], []), map[]) && s.waiters == 0 && s.lk.w.None? && s.lk.x.XFree?
  {
    hide LocksW, LocksCf, LocksDl, SlotCount, CloserWakeUp, Handles, Phases, FileInv, MemInv, Locals, NetOk, WaiterCount;
    Quiescent(p, s);
    AllEnded(p, s);
    AloneMem(p, s);
    AloneLocks(p, s);
  }

  /** The steps that start the shutdown and destroy the cache, taken by the closer alone. */
  ghost predicate EndsAlone(p: Params, s: State, s': State, t: Tid)
    requires p.blksz > 0
  {
    && IsCloser(s, t) && OnlyClosers(s) && t in s'.thr && s'.thr == s.thr[t := s'.thr[t]]
    && s'.thr[t].role.Closer? && !s'.thr[t].pc.CloseWant? && !s'.thr[t].pc.CloseWait?
    && s.mem == Mem(Table(map[], []), map[]) == s'.mem && s.waiters == 0 == s'.waiters
    && s.lk.w.None? && s.lk.x.XFree? && s'.lk.w.None? && s'.lk.x.XFree?
    && s'.sem == s.sem && s'.file == s.file
  }

  lemma EndsMem(p: Params, s: State, s': State, t: Tid)
    requires p.blksz > 0 && EndsAlone(p, s, s', t)
    ensures MemInv(p, s') && LocksW(s') && NetOk(p, s') && WaiterCount(s')
  {
    assert OnlyClosers(s');
    NoTrackers(p, s');
    NoLocks(p, s');
  }

  lemma NoTrackers(p: Params, s: State)
    requires p.blksz > 0 && OnlyClosers(s) && s.mem == Mem(Table(map[], []), map[])
    ensures MemInv(p, s)
  {
    ClosersIdle(p, s);
    hide OnlyClosers, Own, WaitOn, HasTs, Cur, TsOk, Served;
  }

  lemma NoLocks(p: Params, s: State)
    requires p.blksz > 0 && OnlyClosers(s) && s.lk.w.None? && s.lk.x.XFree? && s.waiters == 0
    ensures LocksW(s) && NetOk(p, s) && WaiterCount(s)
  {
    assert Waiting(s.thr) == {} && Downloaders(s.thr) == {};
  }

  lemma EndsLocals(p: Params, s: State, s': State, t: Tid)
    requires p.blksz > 0 && Locals(p, s) && Misses(p, s.file.seg, s.thr) && EndsAlone(p, s, s', t) && LocalOk(p, s'.thr[t])
    ensures Locals(p, s') && Misses(p, s.file.seg, s'.thr)
  {
    hide LocalOk, OnlyClosers;
  }

  lemma EndsShape(p: Params, s: State, t: Tid, act: CloseAct)
    requires p.blksz > 0 && EnabledClose(p, s, t, act) && (act.ShutDown? || act.Destroy?)
    requires OnlyClosers(s) && s.mem == Mem(Table(map[], []), map[]) && s.waiters == 0 && s.lk.w.None? && s.lk.x.XFree?
    ensures var s' := EffectClose(p, s, t, act); EndsAlone(p, s, s', t) && LocalOk(p, s'.thr[t])
  {
    hide OnlyClosers;
    assert ReleaseAll(Table(map[], [])) == Table(map[], []);
  }

  lemma EndsLocks(p: Params, s: State, t: Tid, act: CloseAct)
    requires p.blksz > 0 && EnabledClose(p, s, t, act) && (act.ShutDown? || act.Destroy?)
    requires LocksCf(s) && LocksDl(s) && CloserWakeUp(s) && s.lk.x.XFree?
    ensures var s' := EffectClose(p, s, t, act);
            LocksCf(s') && LocksDl(s') && (s.waiters == 0 ==> CloserWakeUp(s'))
  {
  }

  lemma EndsPhases(p: Params, s: State, t: Tid, act: CloseAct)
    requires p.blksz > 0 && EnabledClose(p, s, t, act) && (act.ShutDown? || act.Destroy?)
    requires Locals(p, s) && LocksCf(s) && SlotCount(p, s) && Handles(s) && Phases(s) && OnlyClosers(s) && s.waiters == 0
    ensures var s' := EffectClose(p, s, t, act); SlotCount(p, s') && Handles(s') && Phases(s')
  {
    hide SlotHolders, Waiting, Downloaders, HasSlot;
    var s' := EffectClose(p, s, t, act);
    assert SlotHolders(s'.thr) == SlotHolders(s.thr) by {
      Views(s.thr, t, s'.thr[t]);
      assert t !in SlotHolders(s.thr) && !HasSlot(s'.thr[t]) by {
        NoSlot(s, t);
        NoSlot(s', t);
      }
    }
    assert ClosersWaiting(s'.thr) == ClosersWaiting(s.thr);
    if act.Destroy? {
      assert ClosersWaiting(s.thr) == {};
      forall u | u in s'.thr
        ensures !Active(s'.thr[u])
      {
        assert u !in ClosersWaiting(s.thr);
        assert LocalOk(p, s.thr[u]);
      }
    }
  }

  lemma NoSlot(s: State, t: Tid)
    requires IsCloser(s, t)
    ensures !HasSlot(s.thr[t]) && t !in SlotHolders(s.thr)
  {
  }

  lemma EndStep(p: Params, s: State, t: Tid, act: CloseAct, seg0: seq<bool>)
    requires p.blksz > 0 && Core(p, s, seg0) && EnabledClose(p, s, t, act) && (act.ShutDown? || act.Destroy?)
    ensures Core(p, EffectClose(p, s, t, act), seg0)
  {
    hide LocksW, LocksDl, NetOk, WaiterCount, SlotCount, CloserWakeUp, Handles, Phases;
    hide MemInv, Coherent, LogOk, Misses, Locals, LocalOk, OnlyClosers, EndsAlone;
    var s' := EffectClose(p, s, t, act);
    assert s.lk.cf == Some(t);
    Alone(p, s, seg0);
    EndsShape(p, s, t, act);
    EndsMem(p, s, s', t);
    EndsLocals(p, s, s', t);
    EndsLocks(p, s, t, act);
    EndsPhases(p, s, t, act);
  }

  /** Every step of a closer keeps the invariant. */
  lemma CloseStep(p: Params, s: State, t: Tid, act: CloseAct, seg0: seq<bool>)
    requires p.blksz > 0 && Core(p, s, seg0) && EnabledClose(p, s, t, act)
    ensures Core(p, EffectClose(p, s, t, act), seg0)
  {
    hide Core, EffectClose, EnabledClose;
    match act
    case LockCf | TakeSlot | SaveBitmap | FreeBitmap | CloserWake => CloserStep(p, s, t, act, seg0);
    case ShutDown | Destroy => EndStep(p, s, t, act, seg0);
  }
}
