/** From every reachable state the threads can all be brought to their end: the closers after the readers.
    With `CacheRuns`, a read can always complete, and it then returns what a plain read would. */
module CacheEnding {
  import opened Prelude
  import opened Blocks
  import opened CacheState
  import CacheFaults
  import CacheOutcome
  import opened CacheInv
  import opened CacheSteps
  import opened CacheKeep
  import opened CacheClose
  import opened CacheRuns
  import opened CacheProgress
  import opened CacheClosing
  import opened CacheSettle
  import opened CacheFinish

  // ----- the closers -----

  /** How far a closer is from its end. */
  function CloseRank(p: Params, l: Local): nat {
    match l.pc
    case CloseWant => p.workers + 10
    case CloseTake(k) => Max(p.workers - k, 0) + 5
    case CloseFree => 4
    case CloseList => 3
    case CloseWait => 2
    case CloseDestroy => 1
    case _ => 0
  }

  ghost function Ranks(p: Params, s: State): map<Tid, nat> {
    map t: Tid | t in s.thr :: CloseRank(p, s.thr[t])
  }

  /** No reader or background thread is left, and no lock but `cf_lock` is held. */
  ghost predicate ClosersLeft(s: State) {
    Calm(s) && OnlyClosers(s)
  }

  /** Closer `t` comes closer to its end; nobody else moves. */
  ghost predicate Closes(p: Params, s: State, s': State, t: Tid) {
    && IsCloser(s, t) && IsCloser(s', t) && s'.thr == s.thr[t := s'.thr[t]] && Calm(s')
    && CloseRank(p, s'.thr[t]) < CloseRank(p, s.thr[t])
  }

  lemma ClosesSums(p: Params, s: State, s': State, t: Tid)
    requires Closes(p, s, s', t) && ClosersLeft(s)
    ensures Sum(Ranks(p, s')) < Sum(Ranks(p, s)) && ClosersLeft(s')
  {
    hide CloseRank, Sum;
    assert Ranks(p, s') == Ranks(p, s)[t := CloseRank(p, s'.thr[t])];
    SumPut(Ranks(p, s), t, CloseRank(p, s'.thr[t]));
  }

  lemma ClosesAlike(p: Params, s: State, s1: State, s2: State, s': State, t: Tid)
    requires Closes(p, s1, s2, t) && Alike(s2, s') && s1.thr == s.thr
    ensures Closes(p, s, s', t)
  {
    hide CloseRank;
  }

  lemma CloseDown(p: Params, s: State, t: Tid, act: CloseAct)
    requires EnabledClose(p, s, t, act) && s.lk.x.XFree? && s.waiters == 0
    requires act.ShutDown? || act.CloserWake? || s.lk.dl.None?
    ensures Closes(p, s, EffectClose(p, s, t, act), t)
  {
    hide ReleaseAll;
  }

  /** What the closer that holds `cf_lock`, or waits for it, does next. */
  ghost predicate NextAct(p: Params, s: State, t: Tid, act: CloseAct) {
    if act.ShutDown? || act.CloserWake? then WantsDl(s, t) && EnabledClose(p, Locked(s, t), t, act)
    else EnabledClose(p, s, t, act)
  }

  lemma GoesClose(p: Params, s0: State, s: State, t: Tid, act: CloseAct) returns (s': State)
    requires p.blksz > 0 && Leads(p, s0, s) && ClosersLeft(s) && s.waiters == 0 && NextAct(p, s, t, act)
    ensures Leads(p, s0, s') && Closes(p, s, s', t)
  {
    hide Leads, Closes, OnlyClosers, WantsDl, EffectClose;
    var s1 := s;
    if act.ShutDown? || act.CloserWake? {
      s1 := ThenLock(p, s0, s, t);
    }
    CloseDown(p, s1, t, act);
    s' := ThenClose(p, s0, s1, t, act);
    ClosesAlike(p, s, s1, EffectClose(p, s1, t, act), s', t);
  }

  lemma NoWaiters(p: Params, s: State, seg0: seq<bool>)
    requires p.blksz > 0 && Inv(p, s, seg0) && OnlyClosers(s)
    ensures s.waiters == 0 && SlotHolders(s.thr) == {}
  {
    hide LocksCf, LocksDl, SlotCount, CloserWakeUp, Handles, Phases, FileInv, MemInv, Locals;
    AloneLocks(p, s);
  }

  /** With nobody else left, a slot the closer has not taken is free. */
  lemma SlotLeft(p: Params, s: State, t: Tid, seg0: seq<bool>)
    requires p.blksz > 0 && Inv(p, s, seg0) && OnlyClosers(s) && s.lk.cf == Some(t) && IsCloser(s, t) && s.thr[t].pc.CloseTake?
    ensures s.thr[t].pc.k <= p.workers && (s.thr[t].pc.k < p.workers ==> s.sem > 0)
  {
    NoWaiters(p, s, seg0);
    hide LocksW, LocksDl, LocksCf, NetOk, WaiterCount, CloserWakeUp, Handles, FileInv, MemInv, Locals, OnlyClosers, SlotHolders;
    CloserBound(p, s, t);
    NotGone(p, s, t);
  }

  /** What the holder of `cf_lock` does next. */
  lemma HolderNext(p: Params, s: State, t: Tid, seg0: seq<bool>) returns (act: CloseAct)
    requires p.blksz > 0 && Inv(p, s, seg0) && OnlyClosers(s) && s.lk.cf == Some(t)
    ensures NextAct(p, s, t, act)
  {
    hide LocksW, LocksDl, NetOk, WaiterCount, SlotCount, CloserWakeUp, Handles, Phases, FileInv, MemInv, Locals, OnlyClosers;
    match s.thr[t].pc
    case CloseTake(k) =>
      SlotLeft(p, s, t, seg0);
      act := if k == p.workers then SaveBitmap else TakeSlot;
    case CloseFree => act := FreeBitmap;
    case CloseList => act := ShutDown;
    case CloseWait => CloserIsWoken(p, s, t, seg0); act := CloserWake;
    case CloseDestroy => act := Destroy;
  }

  /** Whoever holds `cf_lock` goes first. */
  lemma CloserNext(p: Params, s: State, u: Tid, seg0: seq<bool>) returns (t: Tid, act: CloseAct)
    requires p.blksz > 0 && Inv(p, s, seg0) && OnlyClosers(s) && u in s.thr && Active(s.thr[u])
    ensures NextAct(p, s, t, act)
  {
    if s.lk.cf.Some? {
      hide Inv, NextAct, OnlyClosers;
      t := s.lk.cf.value;
      act := HolderNext(p, s, t, seg0);
    } else {
      WantsCf(p, s, u, seg0);
      hide Inv, OnlyClosers;
      t, act := u, LockCf;
    }
  }

  lemma WantsCf(p: Params, s: State, u: Tid, seg0: seq<bool>)
    requires p.blksz > 0 && Inv(p, s, seg0) && OnlyClosers(s) && u in s.thr && Active(s.thr[u]) && s.lk.cf.None?
    ensures IsCloser(s, u) && s.thr[u].pc.CloseWant?
  {
    OneLocal(p, s, u, seg0);
    RolePc(p, s.thr[u]);
    hide LocksW, LocksDl, NetOk, WaiterCount, SlotCount, CloserWakeUp, Handles, FileInv, MemInv, Locals, Phases, LocalOk;
  }

  /** The last closer destroys the cache, and all others return. */
  lemma {:induction false} AllClosed(p: Params, s0: State, s: State, seg0: seq<bool>) returns (s': State)
    requires p.blksz > 0 && Inv(p, s0, seg0) && Leads(p, s0, s) && ClosersLeft(s)
    ensures Leads(p, s0, s') && AllEnd(s')
    decreases Sum(Ranks(p, s))
  {
    hide Leads, Inv, Closes, Sum, Ranks, ClosersLeft, NextAct;
    s' := s;
    if !AllEnd(s) {
      LeadsKeeps(p, s0, s, seg0);
      var u :| u in s.thr && Active(s.thr[u]);
      var t, act := SomeCloser(p, s, u, seg0);
      s' := GoesClose(p, s0, s, t, act);
      ClosesSums(p, s, s', t);
      s' := AllClosed(p, s0, s', seg0);
    }
  }

  lemma SomeCloser(p: Params, s: State, u: Tid, seg0: seq<bool>) returns (t: Tid, act: CloseAct)
    requires p.blksz > 0 && Inv(p, s, seg0) && ClosersLeft(s) && u in s.thr && Active(s.thr[u])
    ensures NextAct(p, s, t, act) && s.waiters == 0
  {
    hide Inv, NextAct, OnlyClosers;
    NoWaiters(p, s, seg0);
    t, act := CloserNext(p, s, u, seg0);
  }

  ghost predicate AllEnd(s: State) {
    forall t :: t in s.thr ==> !Active(s.thr[t])
  }

  // ----- everybody -----

  lemma NobodyReads(p: Params, s: State, seg0: seq<bool>)
    requires p.blksz > 0 && Inv(p, s, seg0) && Rested(p, s) && Readers(s) == {}
    ensures ClosersLeft(s)
  {
    hide CommonInv, MemInv, FileInv;
    forall t | t in s.thr && Active(s.thr[t])
      ensures s.thr[t].role.Closer?
    {
      AtRest(p, s.thr[t], TsOf(s, t));
      assert t !in Readers(s);
    }
    hide LocalOk, Distance;
    AllEnded(p, s);
  }

  /** Lock holders leave their sections, downloads come to their end, readers return one after the other,
      and then the closers do. */
  lemma FinishAll(p: Params, s: State, seg0: seq<bool>) returns (s': State)
    requires p.blksz > 0 && Inv(p, s, seg0)
    ensures Leads(p, s, s') && AllEnd(s')
  {
    hide Leads, Inv, Calm, Rested, Kept, ClosersLeft, AllEnd;
    s' := MakesCalm(p, s, seg0);
    s' := ComeToRest(p, s, s', seg0);
    s' := AllRead(p, s, s', seg0);
    LeadsKeeps(p, s, s', seg0);
    NobodyReads(p, s', seg0);
    s' := AllClosed(p, s, s', seg0);
  }

  // ----- as a run -----

  /** A run without FUSE calls or spurious wake-ups, in which neither disk nor network fails. */
  ghost predicate GoodRun(p: Params, s: State, run: seq<Step>)
    requires p.blksz > 0 && IsRun(p, s, run)
    decreases |run|
  {
    run != [] ==> OwnAct(p, s, run[0].t, run[0].act) && GoodRun(p, Apply(p, s, run[0].t, run[0].act), run[1..])
  }

  lemma {:induction false} PathIsRun(p: Params, path: seq<State>) returns (run: seq<Step>)
    requires p.blksz > 0 && Path(p, path)
    ensures IsRun(p, path[0], run) && After(p, path[0], run) == path[|path| - 1] && GoodRun(p, path[0], run)
    decreases |path|
  {
    hide Apply, Enabled, GoesWell;
    if |path| == 1 {
      run := [];
    } else {
      assert StepAt(p, path, 0);
      var t: Tid, act: Act :| OwnAct(p, path[0], t, act) && path[1] == Apply(p, path[0], t, act);
      forall i: nat | i + 1 < |path[1..]|
        ensures StepAt(p, path[1..], i)
      {
        assert StepAt(p, path, i + 1);
      }
      var rest := PathIsRun(p, path[1..]);
      run := [Step(t, act)] + rest;
      assert run[1..] == rest;
    }
  }

  /** Threads do not disappear: each is there after the run, and has ended. */
  ghost predicate Ends(s: State, s': State) {
    (forall t :: t in s.thr ==> t in s'.thr) && AllEnd(s')
  }

  lemma StepsStay(p: Params, s: State, run: seq<Step>, seg0: seq<bool>)
    requires p.blksz > 0 && Inv(p, s, seg0) && IsRun(p, s, run)
    ensures forall t :: t in s.thr ==> t in After(p, s, run).thr
  {
    hide Inv, IsRun, After;
    forall t | t in s.thr
      ensures t in After(p, s, run).thr
    {
      CallKept(p, s, run, t, seg0);
    }
  }

  lemma CanFinish(p: Params, s: State, seg0: seq<bool>) returns (run: seq<Step>)
    requires p.blksz > 0 && Inv(p, s, seg0)
    ensures IsRun(p, s, run) && GoodRun(p, s, run) && Ends(s, After(p, s, run))
  {
    hide Inv, StepAt, IsRun, After, GoodRun, AllEnd;
    var s' := FinishAll(p, s, seg0);
    var path: seq<State> :| Path(p, path) && path[0] == s && path[|path| - 1] == s';
    run := PathIsRun(p, path);
    StepsStay(p, s, run, seg0);
  }

  lemma {:induction false} GoodHasNoFailure(p: Params, s: State, run: seq<Step>, t: Tid)
    requires p.blksz > 0 && IsRun(p, s, run) && GoodRun(p, s, run)
    ensures NoFailure(p, s, run, t)
    decreases |run|
  {
    hide Apply, Enabled, PieceLen;
    if run != [] {
      GoodHasNoFailure(p, Apply(p, s, run[0].t, run[0].act), run[1..], t);
    }
  }

  /** A Cache_read called now can complete, and can return what a plain read would. */
  lemma CanRead(p: Params, s: State, t: Tid, h: Hid, off: int, req: nat, seg0: seq<bool>) returns (run: seq<Step>)
    requires p.blksz > 0 && Inv(p, s, seg0) && Enabled(p, s, t, Env(CallRead(h, off, req)))
    ensures var s1 := Apply(p, s, t, Env(CallRead(h, off, req)));
            && IsRun(p, s1, run) && t in After(p, s1, run).thr
            && After(p, s1, run).thr[t].pc == Done(PlainLength(p, off, req))
  {
    hide Inv, IsRun, After, GoodRun, Bad, NoFailure;
    var s1 := Apply(p, s, t, Env(CallRead(h, off, req)));
    CacheFaults.StepKeeps(p, s, t, Env(CallRead(h, off, req)), seg0);
    run := CanFinish(p, s1, seg0);
    GoodHasNoFailure(p, s1, run, t);
    CallKept(p, s1, run, t, seg0);
    ReaderDone(p, s1, run, t, seg0);
    ReadIsPlain(p, s, run, t, h, off, req, seg0);
  }

  lemma ReaderDone(p: Params, s: State, run: seq<Step>, t: Tid, seg0: seq<bool>)
    requires p.blksz > 0 && Inv(p, s, seg0) && IsRun(p, s, run) && IsReader(s, t) && Ends(s, After(p, s, run))
    ensures t in After(p, s, run).thr && After(p, s, run).thr[t].pc.Done?
  {
    hide Core, IsRun, After, LocalOk;
    RunKeeps(p, s, run, seg0);
    CallKept(p, s, run, t, seg0);
    OneLocal(p, After(p, s, run), t, seg0);
    RolePc(p, After(p, s, run).thr[t]);
  }

  // ----- the last close destroys -----

  /** With no handle open or about to be closed, some closer is at work, or the cache is gone. */
  ghost predicate LastRelease(s: State) {
    s.life.opens <= 0 ==> s.lk.cf.Some? || s.life.gone
  }

  lemma CloseKeepsRelease(p: Params, s: State, t: Tid, act: CloseAct)
    requires EnabledClose(p, s, t, act) && LastRelease(s)
    ensures LastRelease(EffectClose(p, s, t, act))
  {
    hide ReleaseAll;
  }

  lemma LifeStays(p: Params, s: State, t: Tid, act: Act)
    requires p.blksz > 0 && Enabled(p, s, t, act) && (act.Read? || act.Down?)
    ensures var s' := Apply(p, s, t, act); s'.life == s.life && s'.lk.cf == s.lk.cf
  {
    hide FindTracker, AddTracker, RemoveTracker, UnrefTracker, RefTracker, WakeAll, WakeCloser, AfterWait, StoreBlock, Usable;
    hide AfterStore, AfterPiece, Cur, Bad, DetachTs, AttachTs, AfterTransfer, Storable, HasNext, Exists, ServedFromDisk, Child;
  }

  lemma StepKeepsRelease(p: Params, s: State, t: Tid, act: Act)
    requires p.blksz > 0 && Enabled(p, s, t, act) && LastRelease(s) && s.life.opens >= 0
    ensures LastRelease(Apply(p, s, t, act))
  {
    if act.Read? || act.Down? {
      LifeStays(p, s, t, act);
      hide Apply, Enabled;
    } else {
      hide EffectRead, EffectDown, EffectClose, EnabledRead, EnabledDown, EnabledClose, Bad, Cur, Lo;
      if act.Close? {
        CloseKeepsRelease(p, s, t, act.c);
      }
    }
  }

  lemma OpensCounted(p: Params, s: State, seg0: seq<bool>)
    requires p.blksz > 0 && Inv(p, s, seg0)
    ensures s.life.opens >= 0
  {
    hide LocksW, LocksCf, LocksDl, NetOk, WaiterCount, SlotCount, CloserWakeUp, Phases, FileInv, MemInv, Locals;
  }

  lemma {:induction false} RunKeepsRelease(p: Params, s: State, run: seq<Step>, seg0: seq<bool>)
    requires p.blksz > 0 && Inv(p, s, seg0) && IsRun(p, s, run) && LastRelease(s)
    ensures LastRelease(After(p, s, run))
    decreases |run|
  {
    hide Inv, Apply, Enabled, LastRelease;
    if run == [] {
    } else {
      OpensCounted(p, s, seg0);
      StepKeepsRelease(p, s, run[0].t, run[0].act);
      CacheFaults.StepKeeps(p, s, run[0].t, run[0].act, seg0);
      RunKeepsRelease(p, Apply(p, s, run[0].t, run[0].act), run[1..], seg0);
    }
  }

  /** Where the closer that holds `cf_lock` has released the bitmap, or has begun the shutdown, it has. */
  ghost predicate Released(s: State) {
    var pc := ClosePc(s);
    && (s.life.gone || pc.CloseList? || pc.CloseWait? || pc.CloseDestroy? ==> s.file.segFreed)
    && (s.life.gone || pc.CloseWait? || pc.CloseDestroy? ==> s.life.shutting)
  }

  lemma CloseReleased(p: Params, s: State, t: Tid, act: CloseAct)
    requires EnabledClose(p, s, t, act) && Released(s) && LocksCf(s)
    ensures Released(EffectClose(p, s, t, act))
  {
    hide ReleaseAll;
  }

  lemma FreedStays(p: Params, s: State, t: Tid, act: Act)
    requires p.blksz > 0 && Enabled(p, s, t, act) && (act.Read? || act.Down?)
    ensures Apply(p, s, t, act).file.segFreed == s.file.segFreed
  {
    hide FindTracker, AddTracker, RemoveTracker, UnrefTracker, RefTracker, WakeAll, WakeCloser, AfterWait, Usable;
    hide AfterStore, AfterPiece, Cur, Bad, DetachTs, AttachTs, AfterTransfer, Storable, HasNext, Exists, ServedFromDisk, Child, WriteData, Mark;
  }

  lemma HolderStays(p: Params, s: State, t: Tid, act: Act)
    requires p.blksz > 0 && Enabled(p, s, t, act) && (act.Read? || act.Down?) && LocksCf(s)
    ensures ClosePc(Apply(p, s, t, act)) == ClosePc(s)
  {
    LifeStays(p, s, t, act);
    ActsAreNotClosers(p, s, t, act);
    hide EffectRead, EffectDown, EnabledRead, EnabledDown, Bad;
    if s.lk.cf.Some? {
      if act.Read? {
        CacheOutcome.ReadAlone(p, s, t, act.r, s.lk.cf.value);
      } else {
        CacheOutcome.DownAlone(p, s, t, act.d, s.lk.cf.value);
      }
    }
  }

  lemma ActsAreNotClosers(p: Params, s: State, t: Tid, act: Act)
    requires p.blksz > 0 && Enabled(p, s, t, act) && (act.Read? || act.Down?)
    ensures t in s.thr && !s.thr[t].role.Closer?
  {
  }

  lemma OthersReleased(p: Params, s: State, t: Tid, act: Act)
    requires p.blksz > 0 && Enabled(p, s, t, act) && !act.Read? && !act.Down? && Released(s) && LocksCf(s)
    ensures Released(Apply(p, s, t, act))
  {
    hide EffectRead, EffectDown, EffectClose, EnabledRead, EnabledDown, EnabledClose, Bad, Cur, Lo, Size;
    if act.Close? {
      CloseReleased(p, s, t, act.c);
    }
  }

  lemma HasLocksCf(p: Params, s: State, seg0: seq<bool>)
    requires p.blksz > 0 && Inv(p, s, seg0)
    ensures LocksCf(s)
  {
    hide LocksW, LocksCf, LocksDl, NetOk, WaiterCount, SlotCount, CloserWakeUp, Handles, Phases, FileInv, MemInv, Locals;
  }

  lemma StepReleased(p: Params, s: State, t: Tid, act: Act, seg0: seq<bool>)
    requires p.blksz > 0 && Inv(p, s, seg0) && Enabled(p, s, t, act) && Released(s)
    ensures Released(Apply(p, s, t, act))
  {
    hide Apply, Enabled, Inv, LocksCf, ClosePc;
    HasLocksCf(p, s, seg0);
    if act.Read? || act.Down? {
      LifeStays(p, s, t, act);
      FreedStays(p, s, t, act);
      HolderStays(p, s, t, act);
    } else {
      OthersReleased(p, s, t, act);
    }
  }

  lemma {:induction false} RunReleased(p: Params, s: State, run: seq<Step>, seg0: seq<bool>)
    requires p.blksz > 0 && Inv(p, s, seg0) && IsRun(p, s, run) && Released(s)
    ensures Released(After(p, s, run))
    decreases |run|
  {
    hide Apply, Enabled, Released, Inv;
    if run == [] {
    } else {
      StepReleased(p, s, run[0].t, run[0].act, seg0);
      CacheFaults.StepKeeps(p, s, run[0].t, run[0].act, seg0);
      RunReleased(p, Apply(p, s, run[0].t, run[0].act), run[1..], seg0);
    }
  }

  /** Once every handle has been released and every thread has ended, the bitmap has been saved and released, the
      trackers are gone and the cache is destroyed. */
  lemma LastCloseDestroys(p: Params, seg: seq<bool>, disk: seq<byte>, s: State)
    requires p.blksz > 0 && Coherent(p, seg, disk) && Reachable(p, seg, disk, s) && AllEnd(s) && s.life.handles == {}
    ensures s.life.gone && s.file.saved.Some? && s.file.segFreed && s.life.shutting && s.mem == Mem(Table(map[], []), map[])
  {
    hide Coherent, IsRun, After, Inv;
    var h: Hid, run: seq<Step> :| IsRun(p, InitState(p, seg, disk, h), run) && After(p, InitState(p, seg, disk, h), run) == s;
    CacheFaults.InitOk(p, seg, disk, h);
    RunKeepsRelease(p, InitState(p, seg, disk, h), run, seg);
    RunReleased(p, InitState(p, seg, disk, h), run, seg);
    RunKeeps(p, InitState(p, seg, disk, h), run, seg);
    GoneAtEnd(p, s, seg);
    GoneIsEmpty(p, s, seg);
  }

  lemma GoneIsEmpty(p: Params, s: State, seg0: seq<bool>)
    requires p.blksz > 0 && Inv(p, s, seg0) && s.life.gone
    ensures s.mem == Mem(Table(map[], []), map[])
  {
    hide Core;
    Alone(p, s, seg0);
  }

  lemma GoneAtEnd(p: Params, s: State, seg0: seq<bool>)
    requires p.blksz > 0 && Inv(p, s, seg0) && LastRelease(s) && AllEnd(s) && s.life.handles == {}
    ensures s.life.gone && s.file.saved.Some?
  {
    hide LocksW, LocksDl, NetOk, WaiterCount, SlotCount, CloserWakeUp, FileInv, MemInv, Locals;
    assert ClosersWaiting(s.thr) == {};
  }
}
