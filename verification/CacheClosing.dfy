/** A cache can always be closed: from its opening there is a run in which the last handle is released
    and the cache destroyed. */
module CacheClosing {
  import opened Prelude
  import opened Blocks
  import opened CacheState
  import opened CacheInv
  import opened CacheFaults
  import opened CacheRuns
  import opened CacheTheorems

  lemma {:induction false} RunsJoin(p: Params, s: State, run: seq<Step>, more: seq<Step>)
    requires p.blksz > 0 && IsRun(p, s, run) && IsRun(p, After(p, s, run), more)
    ensures IsRun(p, s, run + more) && After(p, s, run + more) == After(p, After(p, s, run), more)
    decreases |run|
  {
    hide Enabled, Apply;
    if run == [] {
      assert run + more == more;
    } else {
      assert (run + more)[0] == run[0] && (run + more)[1..] == run[1..] + more;
      RunsJoin(p, Apply(p, s, run[0].t, run[0].act), run[1..], more);
    }
  }

  lemma OneStep(p: Params, s: State, run: seq<Step>, t: Tid, act: Act, seg0: seq<bool>) returns (run': seq<Step>, s': State)
    requires p.blksz > 0 && IsRun(p, s, run) && Inv(p, After(p, s, run), seg0) && Enabled(p, After(p, s, run), t, act)
    ensures run' == run + [Step(t, act)] && IsRun(p, s, run') && After(p, s, run') == s' && Inv(p, s', seg0)
    ensures s' == Effect(p, After(p, s, run), t, act).(fault := false)
  {
    hide Inv, Enabled, Effect, Bad;
    var s1 := After(p, s, run);
    var more := [Step(t, act)];
    assert more[1..] == [];
    StepKeeps(p, s1, t, act, seg0);
    assert IsRun(p, s1, more);
    RunsJoin(p, s, run, more);
    run', s' := run + more, Apply(p, s1, t, act);
    NotFaulty(p, s', seg0);
  }

  lemma NotFaulty(p: Params, s: State, seg0: seq<bool>)
    requires p.blksz > 0 && Inv(p, s, seg0)
    ensures !s.fault
  {
    hide Core;
  }

  /** The closing thread `t` is alone at `pc` in a cache with no handle left. */
  ghost predicate OnlyCloser(s: State, t: Tid, pc: Pc) {
    && s.thr == map[t := CloserPc(pc)] && s.lk == Locks(if pc.CloseWant? then None else Some(t), None, None, XFree)
    && s.mem == Mem(Table(map[], []), map[]) && s.waiters == 0
    && (pc.CloseWant? ==> s.life.opens == 1)
  }

  lemma {:induction false} TakeAll(p: Params, s: State, run: seq<Step>, t: Tid, k: nat, seg0: seq<bool>)
    returns (run': seq<Step>, s': State)
    requires p.blksz > 0 && IsRun(p, s, run) && Inv(p, After(p, s, run), seg0)
    requires OnlyCloser(After(p, s, run), t, CloseTake(k)) && k <= p.workers && After(p, s, run).sem == p.workers - k
    ensures IsRun(p, s, run') && After(p, s, run') == s' && Inv(p, s', seg0)
    ensures OnlyCloser(s', t, CloseTake(p.workers))
    decreases p.workers - k
  {
    hide Inv, IsRun, After;
    if k == p.workers {
      run', s' := run, After(p, s, run);
    } else {
      var run1, s1 := OneStep(p, s, run, t, Close(TakeSlot), seg0);
      run', s' := TakeAll(p, s, run1, t, k + 1, seg0);
    }
  }

  lemma LastRelease(p: Params, seg: seq<bool>, disk: seq<byte>)
    requires p.blksz > 0
    ensures var s0 := InitState(p, seg, disk, 0);
            && Enabled(p, s0, 0, Env(CloseHandle(0)))
            && var s := Effect(p, s0, 0, Env(CloseHandle(0))); OnlyCloser(s, 0, CloseWant) && s.sem == p.workers
  {
  }

  lemma TakesCfLock(p: Params, s: State)
    requires p.blksz > 0 && OnlyCloser(s, 0, CloseWant)
    ensures Enabled(p, s, 0, Close(LockCf))
    ensures var s' := Effect(p, s, 0, Close(LockCf)); OnlyCloser(s', 0, CloseTake(0)) && s'.sem == s.sem
  {
  }

  lemma BeginClosing(p: Params, seg: seq<bool>, disk: seq<byte>) returns (run: seq<Step>, s: State)
    requires p.blksz > 0 && Coherent(p, seg, disk)
    ensures var s0 := InitState(p, seg, disk, 0);
            IsRun(p, s0, run) && After(p, s0, run) == s && Inv(p, s, seg) && OnlyCloser(s, 0, CloseTake(0)) && s.sem == p.workers
  {
    var s0 := InitState(p, seg, disk, 0);
    InitOk(p, seg, disk, 0);
    assert IsRun(p, s0, []) && After(p, s0, []) == s0;
    hide Inv, IsRun, After, Coherent, InitState, Enabled, Effect;
    LastRelease(p, seg, disk);
    run, s := OneStep(p, s0, [], 0, Env(CloseHandle(0)), seg);
    TakesCfLock(p, s);
    run, s := OneStep(p, s0, run, 0, Close(LockCf), seg);
  }

  lemma SaveAndFree(p: Params, s0: State, run: seq<Step>, t: Tid, seg: seq<bool>) returns (run': seq<Step>, s: State)
    requires p.blksz > 0 && IsRun(p, s0, run) && Inv(p, After(p, s0, run), seg) && OnlyCloser(After(p, s0, run), t, CloseTake(p.workers))
    ensures IsRun(p, s0, run') && After(p, s0, run') == s && Inv(p, s, seg) && OnlyCloser(s, t, CloseList)
  {
    hide Inv, IsRun, After;
    run', s := OneStep(p, s0, run, t, Close(SaveBitmap), seg);
    run', s := OneStep(p, s0, run', t, Close(FreeBitmap), seg);
  }

  lemma CanBeClosed(p: Params, seg: seq<bool>, disk: seq<byte>)
    requires p.blksz > 0 && Coherent(p, seg, disk)
    ensures exists s: State :: Reachable(p, seg, disk, s) && s.life.gone
  {
    hide Inv, IsRun, After, Coherent, OnlyCloser, InitState;
    var s0 := InitState(p, seg, disk, 0);
    var run, s := BeginClosing(p, seg, disk);
    run, s := TakeAll(p, s0, run, 0, 0, seg);
    run, s := SaveAndFree(p, s0, run, 0, seg);
    run, s := Finish(p, s0, run, 0, seg);
    assert Reachable(p, seg, disk, s);
  }

  lemma Finish(p: Params, s0: State, run: seq<Step>, t: Tid, seg: seq<bool>) returns (run': seq<Step>, s: State)
    requires p.blksz > 0 && IsRun(p, s0, run) && Inv(p, After(p, s0, run), seg) && OnlyCloser(After(p, s0, run), t, CloseList)
    ensures IsRun(p, s0, run') && After(p, s0, run') == s && s.life.gone
  {
    hide Inv, IsRun, After;
    run', s := OneStep(p, s0, run, t, LockDl, seg);
    run', s := OneStep(p, s0, run', t, Close(ShutDown), seg);
    run', s := OneStep(p, s0, run', t, Close(Destroy), seg);
  }
}
