/** No step touches freed memory or destroys a lock that is still needed; hence the invariant over
    every step. */
module CacheFaults {
  import opened Prelude
  import opened Blocks
  import opened CacheState
  import opened CacheInv
  import opened CacheTable
  import opened CacheSteps
  import opened CacheKeep
  import opened CacheOther
  import opened CacheClose

  /** The destroyed cache takes no more steps, and the freed bitmap is not looked at. */
  lemma NotFreed(p: Params, s: State, t: Tid, act: Act)
    requires p.blksz > 0 && CommonInv(p, s) && Enabled(p, s, t, act)
    ensures !(s.life.gone && !act.Env?) && !(s.file.segFreed && UsesSeg(p, s, t, act))
  {
    hide LocksW, WaiterCount, SlotCount, CloserWakeUp, Handles;
    if UsesSeg(p, s, t, act) && !act.Close? {
      assert Active(s.thr[t]) && !s.thr[t].role.Closer?;
      NotSavedYet(p, s, t);
    }
  }

  lemma ListIsLive(p: Params, s: State)
    requires p.blksz > 0 && MemInv(p, s)
    ensures !exists a :: a in s.mem.tb.list && a !in s.mem.tb.heap
  {
    hide Transfers, Ledger, Owners, WakeUps;
  }

  /** Every tracker and transfer structure reached through a kept pointer is allocated. */
  lemma PointersAreLive(p: Params, s: State, t: Tid, act: Act)
    requires p.blksz > 0 && MemInv(p, s) && NetOk(p, s) && Enabled(p, s, t, act)
    ensures Dereferenced(s, t, act).Some? ==> Dereferenced(s, t, act).value in s.mem.tb.heap
    ensures act.Down? && act.d.DownDetach? ==> t in s.mem.ts
    ensures act.Net? && act.n.NetDeliver? && s.lk.x.XCallback? ==> s.lk.x.to in s.mem.ts
  {
    hide TsOk, ListOk, Owners, WakeUps, Refs, PointersOk;
  }

  lemma FollowedIsLive(p: Params, s: State, t: Tid, act: Act)
    requires p.blksz > 0 && MemInv(p, s) && Enabled(p, s, t, act)
    ensures var d := Followed(p, s, t, act);
            d.Some? && !s.life.shutting && !At(s.mem.tb, d.value).unlinked && At(s.mem.tb, d.value).ts.Some?
            ==> At(s.mem.tb, d.value).ts.value in s.mem.ts
  {
    hide Owners, WakeUps, Refs, AttachesOk, Transfers, FindTracker;
    if act.Read? && act.r.ReadFind? && t in s.thr {
      FoundIs(s.mem.tb, Cur(p, s.thr[t]));
    }
  }

  lemma DestroyIsSafe(p: Params, s: State, t: Tid, act: Act, seg0: seq<bool>)
    requires p.blksz > 0 && Core(p, s, seg0) && Enabled(p, s, t, act) && act.Close? && act.c.Destroy?
    ensures s.lk.w.None? && s.lk.dl.None?
    ensures forall u :: u in s.thr ==> s.thr[u].role.Closer? || !Active(s.thr[u])
  {
    hide LocksW, NetOk, WaiterCount, SlotCount, CloserWakeUp, Handles, Phases, MemInv, FileInv, Locals;
    assert s.lk.cf == Some(t);
    Alone(p, s, seg0);
    DlIsFree(p, s, t);
  }

  lemma DlIsFree(p: Params, s: State, t: Tid)
    requires p.blksz > 0 && LocksDl(s) && LocksCf(s) && Locals(p, s) && OnlyClosers(s) && s.lk.x.XFree? && IsCloser(s, t) && s.thr[t].pc.CloseDestroy?
    ensures s.lk.dl.None?
  {
  }

  /** No step of a reachable state is a fault. */
  lemma NoFault(p: Params, s: State, t: Tid, act: Act, seg0: seq<bool>)
    requires p.blksz > 0 && Core(p, s, seg0) && Enabled(p, s, t, act)
    ensures !Bad(p, s, t, act)
  {
    hide LocksW, LocksCf, LocksDl, NetOk, WaiterCount, SlotCount, CloserWakeUp, Handles, Phases;
    hide MemInv, FileInv, Locals, Enabled, UsesSeg, Dereferenced, Followed;
    NotFreed(p, s, t, act);
    ListIsLive(p, s);
    PointersAreLive(p, s, t, act);
    FollowedIsLive(p, s, t, act);
    if act.Close? && act.c.Destroy? {
      DestroyIsSafe(p, s, t, act, seg0);
    }
  }

  lemma StepCore(p: Params, s: State, t: Tid, act: Act, seg0: seq<bool>)
    requires p.blksz > 0 && Core(p, s, seg0) && Enabled(p, s, t, act)
    ensures Core(p, Effect(p, s, t, act), seg0)
  {
    hide Core, EffectRead, EffectDown, EffectNet, EffectClose, EffectEnv, EnabledRead, EnabledDown, EnabledNet, EnabledClose, EnabledEnv;
    match act
    case Env(e) => EnvStep(p, s, t, e, seg0);
    case LockDl => LockDlStep(p, s, t, seg0);
    case Read(r) => ReadStep(p, s, t, r, seg0);
    case Down(d) => DownStep(p, s, t, d, seg0);
    case Net(n) => NetStep(p, s, t, n, seg0);
    case Close(c) => CloseStep(p, s, t, c, seg0);
  }

  lemma FaultAside(p: Params, s: State, seg0: seq<bool>, fault: bool)
    requires p.blksz > 0 && Core(p, s, seg0)
    ensures Core(p, s.(fault := fault), seg0)
  {
    hide LocksW, LocksCf, LocksDl, NetOk, WaiterCount, SlotCount, CloserWakeUp, Handles, Phases;
    hide MemInv, Coherent, LogOk, Misses, Locals;
    var s' := s.(fault := fault);
    SameLocks(p, s, s');
    Unmoved(p, s, s');
    SameLocals(p, s, s');
    SameMem(p, s, s');
    SameSleep(s, s');
  }

  lemma SameSleep(s: State, s': State)
    requires CloserWakeUp(s) && s'.thr == s.thr && s'.waiters == s.waiters && s'.sig == s.sig
    ensures CloserWakeUp(s')
  {
  }

  /** Every step keeps the invariant, in particular that nothing has gone wrong. */
  lemma StepKeeps(p: Params, s: State, t: Tid, act: Act, seg0: seq<bool>)
    requires p.blksz > 0 && Inv(p, s, seg0) && Enabled(p, s, t, act)
    ensures Inv(p, Apply(p, s, t, act), seg0)
  {
    hide Core, Effect, Enabled, Bad;
    StepCore(p, s, t, act, seg0);
    NoFault(p, s, t, act, seg0);
    FaultAside(p, Effect(p, s, t, act), seg0, false);
  }

  /** A freshly opened cache satisfies the invariant when its data file agrees with its bitmap. */
  lemma InitOk(p: Params, seg: seq<bool>, disk: seq<byte>, h: Hid)
    requires p.blksz > 0 && Coherent(p, seg, disk)
    ensures Inv(p, InitState(p, seg, disk, h), seg)
  {
    var s := InitState(p, seg, disk, h);
    assert Waiting(s.thr) == {} && Downloaders(s.thr) == {} && SlotHolders(s.thr) == {} && ClosersWaiting(s.thr) == {};
  }
}
