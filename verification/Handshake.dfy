/** The shutdown handshake of Cache_free: readers that are still asleep on trackers when the last
    Cache_close frees the cache, however many there are. */
module Handshake {
  import opened Prelude
  import opened Blocks
  import opened CacheState
  import opened CacheInv
  import opened CacheSteps
  import opened CacheMem
  import opened CacheProgress
  import opened CacheRuns

  /** Apart from `c`, only sleeping readers are left; nobody can come in any more. */
  ghost predicate OnlySleepers(s: State, c: Tid) {
    && (forall t :: t in s.thr && t != c && Active(s.thr[t]) ==> WaitOn(s.thr[t]).Some?)
    && IsCloser(s, c)
    && s.life.handles == {} && !s.life.linked && s.lk.w.None? && s.lk.x.XFree? && s.mem.ts == map[]
    && s.waiters == |Waiting(s.thr)|
    && (s.lk.dl.Some? ==> WantsDl(s, s.lk.dl.value))
  }

  ghost predicate SleepersOk(s: State) {
    && Refs(s.mem, s.thr)
    && (forall t :: t in s.thr && WaitOn(s.thr[t]).Some? ==> WaitOn(s.thr[t]).value in s.mem.tb.heap)
  }

  /** Cache_free is about to run its first section; every sleeper that has not been woken waits on a
      tracker of the list. Trackers nobody will remove may still be listed. */
  ghost predicate BeforeShutDown(s: State, c: Tid) {
    && OnlySleepers(s, c) && SleepersOk(s) && ListOk(s.mem.tb)
    && s.thr[c].pc.CloseList? && s.lk.dl == Some(c) && s.lk.cf == Some(c) && !s.life.gone && !s.fault
    && (forall t :: t in s.thr && WaitOn(s.thr[t]).Some? && t !in s.sig ==> WaitOn(s.thr[t]).value in s.mem.tb.list)
  }

  /** The shutdown has begun: every sleeper has been woken, and the closer waits for the last of them. */
  ghost predicate ShuttingDown(s: State, c: Tid) {
    && OnlySleepers(s, c) && SleepersOk(s) && s.life.shutting && s.mem.tb.list == [] && !s.fault
    && (s.thr[c].pc.CloseWait? || s.thr[c].pc.CloseDestroy? || s.thr[c].pc.CloseDone?)
    && (s.thr[c].pc.CloseWait? && c !in s.sig ==> s.waiters > 0)
    && (!s.thr[c].pc.CloseWait? ==> s.waiters == 0)
    && (s.life.gone <==> s.thr[c].pc.CloseDone?)
    && (forall t :: t in s.thr && WaitOn(s.thr[t]).Some? ==> t in s.sig)
  }

  lemma ReleaseRefs(s: State, c: Tid)
    requires BeforeShutDown(s, c)
    ensures SleepersOk(DoShutDown(s, c))
  {
    var s' := DoShutDown(s, c);
    assert forall a: nat :: WaitersOn(s'.thr, a) == WaitersOn(s.thr, a);
    forall a | a in s'.mem.tb.heap
      ensures RefsOk(s'.mem.tb, s'.thr, s'.mem.ts, a)
    {
      assert RefsOk(s.mem.tb, s.thr, s.mem.ts, a);
    }
    forall t | t in s'.thr && WaitOn(s'.thr[t]).Some?
      ensures WaitOn(s'.thr[t]).value in s'.mem.tb.heap
    {
      var a := WaitOn(s.thr[t]).value;
      assert RefsOk(s.mem.tb, s.thr, s.mem.ts, a);
      assert t in WaitersOn(s.thr, a);
      assert |WaitersOn(s.thr, a)| > 0;
    }
  }

  lemma ShutDownSleepers(s: State, c: Tid)
    requires BeforeShutDown(s, c)
    ensures var s' := DoShutDown(s, c);
            && OnlySleepers(s', c) && (s'.thr[c].pc.CloseWait? || s'.thr[c].pc.CloseDestroy?)
            && (s'.thr[c].pc.CloseWait? <==> s.waiters > 0) && s'.waiters == s.waiters
            && (forall t :: t in s'.thr && WaitOn(s'.thr[t]).Some? ==> t in s'.sig)
  {
    hide SleepersOk, ListOk;
    assert Waiting(DoShutDown(s, c).thr) == Waiting(s.thr);
  }

  /** Freeing the list wakes every sleeper and leaves each tracker to the waiters that still hold it. */
  lemma ShutDownBegins(p: Params, s: State, c: Tid)
    requires p.blksz > 0 && BeforeShutDown(s, c)
    ensures Enabled(p, s, c, Close(ShutDown)) && ShuttingDown(Apply(p, s, c, Close(ShutDown)), c)
  {
    hide SleepersOk, OnlySleepers, Bad, ListOk;
    ShutDownIsSafe(p, s, c);
    ReleaseRefs(s, c);
    ShutDownSleepers(s, c);
    WaitersNat(s, c);
  }

  lemma ShutDownIsSafe(p: Params, s: State, c: Tid)
    requires p.blksz > 0 && BeforeShutDown(s, c)
    ensures Enabled(p, s, c, Close(ShutDown)) && !Bad(p, s, c, Close(ShutDown))
  {
    hide SleepersOk;
  }

  lemma WaitersNat(s: State, c: Tid)
    requires OnlySleepers(s, c)
    ensures s.waiters >= 0 && IsCloser(s, c)
  {
  }

  // ----- while the sleepers leave -----

  /** Only four kinds of step are left. */
  lemma WhoMoves(p: Params, s: State, c: Tid, step: Step)
    requires p.blksz > 0 && ShuttingDown(s, c) && Enabled(p, s, step.t, step.act)
    ensures step.act.LockDl? || (step.act.Env? && step.act.e.Spurious?)
            || (step.act.Read? && step.act.r.ReadWake?)
            || (step.t == c && step.act.Close? && (step.act.c.CloserWake? || step.act.c.Destroy?))
  {
    hide SleepersOk, Cur, Lo;
  }

  lemma WakeRefs(s: State, s': State, t: Tid)
    requires SleepersOk(s) && GaveUp(s, s', t) && s'.mem == s.mem.(tb := UnrefTracker(s.mem.tb, s.thr[t].pc.a)) && s.mem.ts == map[]
    ensures SleepersOk(s')
  {
    assert WaitOn(s.thr[t]) == Some(s.thr[t].pc.a);
    RefsLeave(s.mem, s.thr, t, s'.thr[t], s.thr[t].pc.a);
    forall u | u in s'.thr && WaitOn(s'.thr[u]).Some?
      ensures WaitOn(s'.thr[u]).value in s'.mem.tb.heap
    {
      assert u in WaitersOn(s.thr, WaitOn(s.thr[u]).value);
    }
  }

  /** A woken sleeper finds the shutdown, gives back its reference and returns. */
  lemma WakeGivesUp(p: Params, s: State, t: Tid)
    requires p.blksz > 0 && s.life.shutting && IsReader(s, t) && s.thr[t].pc.Asleep?
    ensures var s' := DoWake(p, s, t);
            GaveUp(s, s', t) && s'.mem == s.mem.(tb := UnrefTracker(s.mem.tb, s.thr[t].pc.a))
  {
    hide EarlyCopy, WakeCloser;
  }

  /** The state after the sleeper has returned. */
  ghost predicate GaveUp(s: State, s': State, t: Tid) {
    && IsReader(s, t) && s.thr[t].pc.Asleep? && t in s'.thr && s'.thr == s.thr[t := s'.thr[t]] && s'.thr[t].pc == Done(-EIO)
    && s'.thr[t].role.Reader? && s'.mem.ts == s.mem.ts && s'.mem.tb.list == s.mem.tb.list && s'.life == s.life && s'.file == s.file
    && s'.waiters == s.waiters - 1 && s'.lk == s.lk.(dl := None) && s'.fault == s.fault
    && s'.sig == WakeCloser(s, s.waiters - 1) - {t}
  }

  lemma OneSleeperLess(s: State, s': State, c: Tid, t: Tid)
    requires OnlySleepers(s, c) && GaveUp(s, s', t)
    ensures OnlySleepers(s', c) && s'.thr[c] == s.thr[c] && s'.waiters >= 0
  {
    Sizes(s.thr, t, s'.thr[t]);
    hide Waiting, Downloaders, SlotHolders, WakeCloser;
  }

  lemma StillShuttingDown(s: State, s': State, c: Tid, t: Tid)
    requires ShuttingDown(s, c) && GaveUp(s, s', t) && SleepersOk(s')
    ensures ShuttingDown(s', c)
  {
    OneSleeperLess(s, s', c, t);
    WaitersNat(s, c);
    hide SleepersOk, OnlySleepers;
  }

  lemma WakeLeaves(p: Params, s: State, c: Tid, t: Tid)
    requires p.blksz > 0 && ShuttingDown(s, c) && EnabledRead(p, s, t, ReadWake)
    ensures var s' := DoWake(p, s, t);
            && ShuttingDown(s', c) && s'.thr[t].pc == Done(-EIO) && s'.waiters == s.waiters - 1 && s'.file == s.file
  {
    WakeGivesUp(p, s, t);
    var s' := DoWake(p, s, t);
    hide DoWake, SleepersOk, UnrefTracker, WaitOn, WakeCloser;
    WakeRefs(s, s', t);
    StillShuttingDown(s, s', c, t);
  }

  lemma CloserRefs(s: State, c: Tid, l: Local)
    requires SleepersOk(s) && IsCloser(s, c) && l.role.Closer?
    ensures SleepersOk(s.(thr := s.thr[c := l]))
  {
    var thr := s.thr[c := l];
    assert forall a: nat :: WaitersOn(thr, a) == WaitersOn(s.thr, a);
    RefsMove(s.mem, s.thr, thr);
  }

  /** Nobody waits, so nobody wants `dl_lock`. */
  lemma NobodyLeft(s: State, c: Tid)
    requires ShuttingDown(s, c) && !s.thr[c].pc.CloseWait?
    ensures s.lk.dl.None? && forall u :: u in s.thr && u != c ==> !Active(s.thr[u])
  {
    hide SleepersOk;
    assert forall u :: u in s.thr && WaitOn(s.thr[u]).Some? ==> u in Waiting(s.thr);
    assert Waiting(s.thr) == {};
  }

  lemma CloserGoesOn(p: Params, s: State, c: Tid, act: CloseAct)
    requires p.blksz > 0 && ShuttingDown(s, c) && EnabledClose(p, s, c, act) && (act.CloserWake? || act.Destroy?)
    ensures ShuttingDown(EffectClose(p, s, c, act), c)
  {
    var s' := EffectClose(p, s, c, act);
    CloserRefs(s, c, s'.thr[c]);
    assert SleepersOk(s');
    hide SleepersOk;
    if act.Destroy? {
      DestroyGoesOn(p, s, c);
    } else {
      CloserWakesAgain(p, s, c);
    }
  }

  lemma DestroyGoesOn(p: Params, s: State, c: Tid)
    requires p.blksz > 0 && ShuttingDown(s, c) && EnabledClose(p, s, c, Destroy) && SleepersOk(EffectClose(p, s, c, Destroy))
    ensures ShuttingDown(EffectClose(p, s, c, Destroy), c)
  {
    hide SleepersOk;
    NobodyLeft(s, c);
    assert Waiting(EffectClose(p, s, c, Destroy).thr) == Waiting(s.thr);
  }

  lemma CloserWakesAgain(p: Params, s: State, c: Tid)
    requires p.blksz > 0 && ShuttingDown(s, c) && EnabledClose(p, s, c, CloserWake) && SleepersOk(EffectClose(p, s, c, CloserWake))
    ensures ShuttingDown(EffectClose(p, s, c, CloserWake), c)
  {
    hide SleepersOk;
    WaitersNat(s, c);
    assert Waiting(EffectClose(p, s, c, CloserWake).thr) == Waiting(s.thr);
  }

  lemma NoFaultWhileLeaving(p: Params, s: State, c: Tid, step: Step)
    requires p.blksz > 0 && ShuttingDown(s, c) && Enabled(p, s, step.t, step.act)
    ensures !Bad(p, s, step.t, step.act)
  {
    WhoMoves(p, s, c, step);
    if !s.thr[c].pc.CloseWait? {
      NobodyLeft(s, c);
    }
  }

  /** A sleeper goes on sleeping or has returned -EIO. */
  ghost predicate SleepOrLeave(s: State, s': State) {
    forall t :: t in s.thr && WaitOn(s.thr[t]).Some? ==> t in s'.thr && (s'.thr[t] == s.thr[t] || s'.thr[t].pc == Done(-EIO))
  }

  ghost predicate GoesOn(p: Params, s: State, s': State, c: Tid) {
    ShuttingDown(s', c) && s'.file == s.file && SleepOrLeave(s, s')
  }

  lemma WakeGoesOn(p: Params, s: State, c: Tid, t: Tid)
    requires p.blksz > 0 && ShuttingDown(s, c) && EnabledRead(p, s, t, ReadWake)
    ensures GoesOn(p, s, DoWake(p, s, t), c)
  {
    WakeLeaves(p, s, c, t);
    WakeAlone(p, s, t);
    hide ShuttingDown, DoWake;
  }

  lemma WakeAlone(p: Params, s: State, t: Tid)
    requires p.blksz > 0 && EnabledRead(p, s, t, ReadWake)
    ensures forall u :: u in s.thr && u != t ==> u in DoWake(p, s, t).thr && DoWake(p, s, t).thr[u] == s.thr[u]
  {
    hide AfterWait;
  }

  lemma CloseGoesOn(p: Params, s: State, c: Tid, act: CloseAct)
    requires p.blksz > 0 && ShuttingDown(s, c) && EnabledClose(p, s, c, act) && (act.CloserWake? || act.Destroy?)
    ensures GoesOn(p, s, EffectClose(p, s, c, act), c)
  {
    CloserGoesOn(p, s, c, act);
    CloserAlone(p, s, c, act);
    hide ShuttingDown, EffectClose;
  }

  lemma CloserAlone(p: Params, s: State, c: Tid, act: CloseAct)
    requires p.blksz > 0 && IsCloser(s, c) && EnabledClose(p, s, c, act) && (act.CloserWake? || act.Destroy?)
    ensures SleepOrLeave(s, EffectClose(p, s, c, act)) && EffectClose(p, s, c, act).file == s.file
  {
  }

  lemma WaitGoesOn(p: Params, s: State, c: Tid, step: Step)
    requires p.blksz > 0 && ShuttingDown(s, c) && Enabled(p, s, step.t, step.act)
    requires step.act.LockDl? || (step.act.Env? && step.act.e.Spurious?)
    ensures GoesOn(p, s, Effect(p, s, step.t, step.act), c)
  {
    hide Refs;
  }

  lemma WakeEffect(p: Params, s: State, c: Tid, t: Tid)
    requires p.blksz > 0 && ShuttingDown(s, c) && Enabled(p, s, t, Read(ReadWake))
    ensures GoesOn(p, s, Effect(p, s, t, Read(ReadWake)), c)
  {
    hide ShuttingDown, GoesOn, DoWake;
    WakeGoesOn(p, s, c, t);
  }

  lemma CloseEffect(p: Params, s: State, c: Tid, act: CloseAct)
    requires p.blksz > 0 && ShuttingDown(s, c) && Enabled(p, s, c, Close(act)) && (act.CloserWake? || act.Destroy?)
    ensures GoesOn(p, s, Effect(p, s, c, Close(act)), c)
  {
    hide ShuttingDown, GoesOn, EffectClose;
    CloseGoesOn(p, s, c, act);
  }

  lemma EffectGoesOn(p: Params, s: State, c: Tid, step: Step)
    requires p.blksz > 0 && ShuttingDown(s, c) && Enabled(p, s, step.t, step.act)
    ensures GoesOn(p, s, Effect(p, s, step.t, step.act), c)
  {
    hide ShuttingDown, GoesOn, Enabled, Effect;
    WhoMoves(p, s, c, step);
    if step.act.Read? {
      WakeEffect(p, s, c, step.t);
    } else if step.act.Close? {
      CloseEffect(p, s, c, step.act.c);
    } else {
      WaitGoesOn(p, s, c, step);
    }
  }

  /** Every step of the handshake keeps it going, touches neither the freed bitmap nor a freed tracker,
      and lets a reader only leave with -EIO. */
  lemma HandshakeStep(p: Params, s: State, c: Tid, step: Step)
    requires p.blksz > 0 && ShuttingDown(s, c) && Enabled(p, s, step.t, step.act)
    ensures GoesOn(p, s, Apply(p, s, step.t, step.act), c)
  {
    WhoMoves(p, s, c, step);
    NoFaultWhileLeaving(p, s, c, step);
    EffectGoesOn(p, s, c, step);
    hide Effect, Enabled, Bad, OnlySleepers, SleepersOk, SleepOrLeave;
  }

  /** The outcome of every run of the handshake: sleepers are still asleep or have returned -EIO, the cache is
      destroyed only when nobody waits, and nothing freed is touched. */
  lemma {:induction false} HandshakeRun(p: Params, s: State, c: Tid, run: seq<Step>)
    requires p.blksz > 0 && ShuttingDown(s, c) && IsRun(p, s, run)
    ensures var s' := After(p, s, run);
            && ShuttingDown(s', c) && s'.file == s.file
            && (s'.life.gone ==> s'.waiters == 0)
            && forall t :: t in s.thr && WaitOn(s.thr[t]).Some? ==>
                 t in s'.thr && ((WaitOn(s'.thr[t]).Some? && !s'.life.gone) || s'.thr[t].pc == Done(-EIO))
    decreases |run|
  {
    hide Apply, Enabled, SleepersOk;
    if run == [] {
      assert s.life.gone ==> Waiting(s.thr) == {};
      assert forall t :: t in s.thr && WaitOn(s.thr[t]).Some? ==> t in Waiting(s.thr);
    } else {
      HandshakeStep(p, s, c, run[0]);
      HandshakeRun(p, Apply(p, s, run[0].t, run[0].act), c, run[1..]);
      DoneStays(p, Apply(p, s, run[0].t, run[0].act), run[1..]);
    }
  }

  /** What has returned stays returned. */
  lemma {:induction false} DoneStays(p: Params, s: State, run: seq<Step>)
    requires p.blksz > 0 && IsRun(p, s, run)
    ensures forall t :: t in s.thr && s.thr[t].pc.Done? ==> t in After(p, s, run).thr && After(p, s, run).thr[t] == s.thr[t]
    decreases |run|
  {
    hide Apply, Enabled;
    if run == [] {
    } else {
      StepJobs(p, s, run[0].t, run[0].act);
      DoneStays(p, Apply(p, s, run[0].t, run[0].act), run[1..]);
    }
  }

  /** The whole handshake, for any number of sleepers: once the shutdown section has run, whatever happens
      next, nothing freed is touched, the bitmap and the data file stay as they are, `waiters` is the
      number of readers still asleep, the cache is destroyed only at zero, and a reader that was asleep
      either still sleeps in a cache not yet destroyed or has returned -EIO. */
  lemma ShutDownHandshake(p: Params, s: State, c: Tid, run: seq<Step>)
    requires p.blksz > 0 && BeforeShutDown(s, c) && IsRun(p, DoShutDown(s, c), run)
    ensures var s' := After(p, DoShutDown(s, c), run);
            && !s'.fault && s'.file == s.file && s'.waiters == |Waiting(s'.thr)| && (s'.life.gone ==> s'.waiters == 0)
            && forall t :: t in s.thr && WaitOn(s.thr[t]).Some? ==>
                 t in s'.thr && ((WaitOn(s'.thr[t]).Some? && !s'.life.gone) || s'.thr[t].pc == Done(-EIO))
  {
    hide IsRun, After, SleepersOk, OnlySleepers, Waiting, ListOk;
    ShutDownBegins(p, s, c);
    assert Apply(p, s, c, Close(ShutDown)) == DoShutDown(s, c) by {
      ShutDownIsSafe(p, s, c);
    }
    HandshakeRun(p, DoShutDown(s, c), c, run);
    CountOf(After(p, DoShutDown(s, c), run), c);
  }

  lemma CountOf(s: State, c: Tid)
    requires OnlySleepers(s, c)
    ensures s.waiters == |Waiting(s.thr)|
  {
  }

  /** The handshake never gets stuck before the cache is destroyed. */
  lemma HandshakeProgress(p: Params, s: State, c: Tid)
    requires p.blksz > 0 && ShuttingDown(s, c) && !s.life.gone
    ensures CanStep(p, s)
  {
    hide CanStep, CanGoOn, SleepersOk;
    if s.lk.dl.Some? {
      HolderLeaves(p, s, c);
    } else if t :| t in Waiting(s.thr) {
      Shows(p, s, t, LockDl);
    } else {
      assert Waiting(s.thr) == {};
      Shows(p, s, c, if s.thr[c].pc.CloseDestroy? then Close(Destroy) else LockDl);
    }
  }

  lemma HolderLeaves(p: Params, s: State, c: Tid)
    requires p.blksz > 0 && ShuttingDown(s, c) && s.lk.dl.Some?
    ensures CanStep(p, s)
  {
    hide CanStep, CanGoOn, SleepersOk;
    var v := s.lk.dl.value;
    Shows(p, s, v, if v == c then Close(CloserWake) else Read(ReadWake));
  }
}
