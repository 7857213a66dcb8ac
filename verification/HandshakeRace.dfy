/** The shutdown handshake from where Cache_free has released the bitmap and is about to take `dl_lock`:
    the sleepers race the closer for the lock. Exactly when is every outcome of the race harmless? */
module HandshakeRace {
  import opened Prelude
  import opened Blocks
  import opened CacheState
  import opened CacheInv
  import opened CacheSteps
  import opened CacheRuns
  import opened CacheClose
  import CacheProgress
  import opened Handshake

  /** The closer has released the bitmap and wants `dl_lock`, which is free; only sleeping readers are left
      besides it. Whoever has not been woken sleeps on a listed tracker. */
  ghost predicate AtCloseList(s: State, c: Tid) {
    && OnlySleepers(s, c) && SleepersOk(s) && ListOk(s.mem.tb)
    && s.thr[c].pc.CloseList? && s.lk.cf == Some(c) && s.lk.dl.None?
    && s.file.segFreed && !s.life.shutting && !s.life.gone && !s.fault
    && (forall t :: t in s.thr && WaitOn(s.thr[t]).Some? && t !in s.sig ==> WaitOn(s.thr[t]).value in s.mem.tb.list)
  }

  /** Every sleeper's tracker is listed, and does not point at a transfer, since none is left. */
  ghost predicate AllListed(s: State) {
    forall t :: t in s.thr && WaitOn(s.thr[t]).Some? ==>
      WaitOn(s.thr[t]).value in s.mem.tb.list && At(s.mem.tb, WaitOn(s.thr[t]).value).ts.None?
  }

  /** No run from this state, however long and whoever gets the lock first, goes wrong. */
  ghost predicate Safe(p: Params, s: State)
    requires p.blksz > 0
  {
    forall run: seq<Step> :: IsRun(p, s, run) ==> !After(p, s, run).fault
  }

  // ----- with every tracker listed no outcome is harmful -----

  /** Before the section that sets `shutting_down`, whoever holds `dl_lock`. */
  ghost predicate Racing(s: State, c: Tid) {
    && OnlySleepers(s, c) && SleepersOk(s) && ListOk(s.mem.tb) && AllListed(s)
    && s.thr[c].pc.CloseList? && s.lk.cf == Some(c)
    && !s.life.shutting && !s.life.gone && !s.fault
  }

  /** Sleepers, the closer and the kernel are all who can move. */
  lemma WhoRaces(p: Params, s: State, c: Tid, step: Step)
    requires p.blksz > 0 && Racing(s, c) && Enabled(p, s, step.t, step.act)
    ensures step.act.LockDl? || (step.act.Env? && step.act.e.Spurious?)
            || (step.act.Read? && step.act.r.ReadWake?)
            || (step.t == c && step.act.Close? && step.act.c.ShutDown? && s.lk.dl == Some(c))
  {
    hide SleepersOk, ListOk, AllListed;
  }

  /** A sleeper that wins the race finds its tracker listed and no bytes, and sleeps again. */
  lemma WinnerSleeps(p: Params, s: State, c: Tid, t: Tid)
    requires p.blksz > 0 && Racing(s, c) && IsReader(s, t) && s.thr[t].pc.Asleep?
    ensures DoWake(p, s, t) == s.(lk := s.lk.(dl := None), sig := s.sig - {t})
  {
    var a := s.thr[t].pc.a;
    assert WaitOn(s.thr[t]) == Some(a);
    WaitsListed(s, c, a, t);
    hide Racing, PieceLen, Need, Skip, UnrefTracker, WakeCloser;
    assert AfterWait(p, s.mem, false, s.thr[t], a) == s.thr[t];
    hide AfterWait;
    assert s.thr[t := s.thr[t]] == s.thr;
  }

  lemma WaitsListed(s: State, c: Tid, a: Aid, t: Tid)
    requires Racing(s, c) && t in s.thr && WaitOn(s.thr[t]) == Some(a)
    ensures a in s.mem.tb.heap && !At(s.mem.tb, a).unlinked && At(s.mem.tb, a).ts.None? && !s.life.shutting && !s.life.gone
  {
    hide OnlySleepers, Refs;
  }

  lemma WakeIsSafe(p: Params, s: State, c: Tid, t: Tid)
    requires p.blksz > 0 && Racing(s, c) && EnabledRead(p, s, t, ReadWake)
    ensures !Bad(p, s, t, Read(ReadWake))
  {
    assert WaitOn(s.thr[t]) == Some(s.thr[t].pc.a);
    WaitsListed(s, c, s.thr[t].pc.a, t);
    hide Racing;
  }

  /** Only locks and wake-ups change. */
  lemma StillRacing(s: State, s': State, c: Tid)
    requires Racing(s, c) && s' == s.(lk := s'.lk, sig := s'.sig) && s'.lk == s.lk.(dl := s'.lk.dl)
    requires s'.lk.dl.Some? ==> WantsDl(s', s'.lk.dl.value)
    ensures Racing(s', c)
  {
    hide ListOk, WantsDl, RefsOk;
  }

  lemma RaceIsCalm(p: Params, s: State, c: Tid, step: Step)
    requires p.blksz > 0 && Racing(s, c) && Enabled(p, s, step.t, step.act)
    requires step.act.LockDl? || step.act.Env?
    ensures Racing(Apply(p, s, step.t, step.act), c) && Apply(p, s, step.t, step.act).thr == s.thr
    ensures Apply(p, s, step.t, step.act).file == s.file
  {
    WhoRaces(p, s, c, step);
    WantKept(s, c);
    hide Racing, SleepersOk, OnlySleepers, ListOk, AllListed, Bad;
    assert !Bad(p, s, step.t, step.act) by {
      LockIsSafe(p, s, c, step);
    }
    StillRacing(s, Apply(p, s, step.t, step.act), c);
  }

  lemma WantKept(s: State, c: Tid)
    requires Racing(s, c)
    ensures !s.fault && (s.lk.dl.Some? ==> WantsDl(s, s.lk.dl.value))
  {
  }

  lemma LockIsSafe(p: Params, s: State, c: Tid, step: Step)
    requires p.blksz > 0 && Racing(s, c) && Enabled(p, s, step.t, step.act) && (step.act.LockDl? || step.act.Env?)
    ensures !Bad(p, s, step.t, step.act)
  {
    hide SleepersOk, OnlySleepers, ListOk, AllListed;
  }

  /** The closer's turn: its section is the beginning of the handshake. */
  lemma CloserWins(p: Params, s: State, c: Tid)
    requires p.blksz > 0 && Racing(s, c) && s.lk.dl == Some(c)
    ensures Enabled(p, s, c, Close(ShutDown)) && ShuttingDown(Apply(p, s, c, Close(ShutDown)), c)
    ensures OthersStay(s, Apply(p, s, c, Close(ShutDown)), c)
  {
    hide Racing, BeforeShutDown, ShuttingDown, Bad, DoShutDown, OthersStay, IsCloser;
    RaceIsBefore(s, c);
    ShutDownBegins(p, s, c);
    ShutDownOthers(p, s, Apply(p, s, c, Close(ShutDown)), c);
  }

  lemma ShutDownOthers(p: Params, s: State, s': State, c: Tid)
    requires p.blksz > 0 && Enabled(p, s, c, Close(ShutDown)) && s' == Apply(p, s, c, Close(ShutDown))
    ensures OthersStay(s, s', c)
  {
    hide Bad, ReleaseAll, WaitOn;
  }

  ghost predicate OthersStay(s: State, s': State, c: Tid) {
    s'.file == s.file && forall t :: t in s.thr && t != c ==> t in s'.thr && s'.thr[t] == s.thr[t]
  }

  lemma RaceIsBefore(s: State, c: Tid)
    requires Racing(s, c) && s.lk.dl == Some(c)
    ensures BeforeShutDown(s, c)
  {
    hide OnlySleepers, SleepersOk, ListOk;
    assert IsCloser(s, c) by {
      IsSleeper(s, c);
    }
  }

  /** Sleepers still sleep or have returned -EIO. */
  ghost predicate LeftProperly(s: State, s': State) {
    forall t :: t in s.thr && WaitOn(s.thr[t]).Some? ==>
      t in s'.thr && ((s'.thr[t] == s.thr[t] && !s'.life.gone) || s'.thr[t].pc == Done(-EIO))
  }

  lemma LeftLater(s: State, s1: State, s': State, c: Tid)
    requires OthersStay(s, s1, c) && c in s.thr && WaitOn(s.thr[c]).None? && LeftProperly(s1, s')
    ensures LeftProperly(s, s')
  {
    hide WaitOn;
  }

  lemma {:induction false} RaceRun(p: Params, s: State, c: Tid, run: seq<Step>)
    requires p.blksz > 0 && Racing(s, c) && IsRun(p, s, run)
    ensures var s' := After(p, s, run); !s'.fault && s'.file == s.file && LeftProperly(s, s') && (s'.life.gone ==> s'.waiters == 0)
    decreases |run|
  {
    IsSleeper(s, c);
    hide Racing, Enabled, Apply, WaitOn;
    if run == [] {
    } else {
      var s1 := Apply(p, s, run[0].t, run[0].act);
      var won := RaceStep(p, s, c, run[0]);
      if won {
        HandshakeEnds(p, s1, c, run[1..]);
      } else {
        RaceRun(p, s1, c, run[1..]);
      }
      LeftLater(s, s1, After(p, s, run), c);
    }
  }

  /** One step of the race: it goes on as it was, or the closer has won. */
  lemma RaceStep(p: Params, s: State, c: Tid, step: Step) returns (won: bool)
    requires p.blksz > 0 && Racing(s, c) && Enabled(p, s, step.t, step.act)
    ensures var s1 := Apply(p, s, step.t, step.act);
            OthersStay(s, s1, c) && if won then ShuttingDown(s1, c) else Racing(s1, c)
  {
    WhoRaces(p, s, c, step);
    won := step.act.Close?;
    hide Racing, Enabled, Apply, ShuttingDown;
    if step.act.Close? {
      CloserWins(p, s, c);
    } else if step.act.Read? {
      WakeIsCalm(p, s, c, step.t);
    } else {
      RaceIsCalm(p, s, c, step);
    }
  }

  lemma IsSleeper(s: State, c: Tid)
    requires Racing(s, c)
    ensures !s.fault && !s.life.gone && IsCloser(s, c) && WaitOn(s.thr[c]).None?
  {
  }

  lemma WakeIsCalm(p: Params, s: State, c: Tid, t: Tid)
    requires p.blksz > 0 && Racing(s, c) && Enabled(p, s, t, Read(ReadWake))
    ensures Racing(Apply(p, s, t, Read(ReadWake)), c) && Apply(p, s, t, Read(ReadWake)).thr == s.thr
    ensures Apply(p, s, t, Read(ReadWake)).file == s.file
  {
    hide Racing, DoWake, Bad, EffectDown, EffectNet, EffectEnv, EffectClose, Cur;
    WinnerSleeps(p, s, c, t);
    WakeIsSafe(p, s, c, t);
    IsSleeper(s, c);
    StillRacing(s, Apply(p, s, t, Read(ReadWake)), c);
  }

  lemma HandshakeEnds(p: Params, s: State, c: Tid, run: seq<Step>)
    requires p.blksz > 0 && ShuttingDown(s, c) && IsRun(p, s, run)
    ensures var s' := After(p, s, run); !s'.fault && s'.file == s.file && LeftProperly(s, s') && (s'.life.gone ==> s'.waiters == 0)
  {
    HandshakeRun(p, s, c, run);
    SameSleepers(p, s, c, run);
    hide IsRun, After;
  }

  /** While a sleeper sleeps its record does not change. */
  lemma {:induction false} SameSleepers(p: Params, s: State, c: Tid, run: seq<Step>)
    requires p.blksz > 0 && ShuttingDown(s, c) && IsRun(p, s, run)
    ensures var s' := After(p, s, run);
            SleepOrLeave(s, s')
    decreases |run|
  {
    hide Apply, Enabled, ShuttingDown;
    if run == [] {
    } else {
      var s1 := Apply(p, s, run[0].t, run[0].act);
      HandshakeStep(p, s, c, run[0]);
      SameSleepers(p, s1, c, run[1..]);
      DoneStays(p, s1, run[1..]);
    }
  }

  // ----- otherwise some outcome is -----

  lemma ThreeSteps(p: Params, s: State, a: Step, b: Step, c: Step)
    requires p.blksz > 0 && Enabled(p, s, a.t, a.act)
    requires var s1 := Apply(p, s, a.t, a.act); Enabled(p, s1, b.t, b.act) && Enabled(p, Apply(p, s1, b.t, b.act), c.t, c.act)
    ensures IsRun(p, s, [a, b, c])
    ensures After(p, s, [a, b, c]) == Apply(p, Apply(p, Apply(p, s, a.t, a.act), b.t, b.act), c.t, c.act)
  {
    hide Enabled, Apply;
    assert [a, b, c][1..] == [b, c] && [b, c][1..] == [c] && [c][1..] == [];
    var s1 := Apply(p, s, a.t, a.act);
    var s2 := Apply(p, s1, b.t, b.act);
    assert IsRun(p, s2, [c]) && After(p, s2, [c]) == Apply(p, s2, c.t, c.act);
    assert IsRun(p, s1, [b, c]);
  }

  /** A sleeper that has been woken and whose tracker is no longer listed leaves the wait loop because of
      that, and looks at the bitmap again, which has been released. */
  lemma UnlistedGoesWrong(p: Params, s: State, c: Tid, t: Tid)
    requires p.blksz > 0 && AtCloseList(s, c) && t in s.thr && WaitOn(s.thr[t]).Some? && WaitOn(s.thr[t]).value !in s.mem.tb.list
    ensures var run := [Step(t, LockDl), Step(t, Read(ReadWake)), Step(t, Read(ReadRecheck(0)))];
            IsRun(p, s, run) && After(p, s, run).fault
  {
    WokenIfUnlisted(s, c, t);
    Locked(p, s, c, t);
    hide AtCloseList, IsRun, After, Enabled, Apply, WaitOn, ListOk;
    var s1 := Apply(p, s, t, LockDl);
    LeavesLoop(p, s, s1, t);
    var s2 := Apply(p, s1, t, Read(ReadWake));
    LooksAtFreed(p, s2, t);
    ThreeSteps(p, s, Step(t, LockDl), Step(t, Read(ReadWake)), Step(t, Read(ReadRecheck(0))));
  }

  lemma LooksAtFreed(p: Params, s: State, t: Tid)
    requires p.blksz > 0 && s.file.segFreed && Enabled(p, s, t, Read(ReadRecheck(0)))
    ensures Apply(p, s, t, Read(ReadRecheck(0))).fault
  {
    assert Bad(p, s, t, Read(ReadRecheck(0)));
    hide Enabled, Effect, Bad;
  }

  lemma Locked(p: Params, s: State, c: Tid, t: Tid)
    requires p.blksz > 0 && AtCloseList(s, c) && t in s.thr && WaitOn(s.thr[t]).Some? && t in s.sig
    ensures Enabled(p, s, t, LockDl)
    ensures var s1 := Apply(p, s, t, LockDl);
            s1.thr == s.thr && s1.mem == s.mem && s1.life == s.life && s1.file == s.file && s1.lk.w.None? && s1.lk.dl == Some(t)
  {
    hide SleepersOk, ListOk, Bad;
  }

  lemma LeavesLoop(p: Params, s: State, s1: State, t: Tid)
    requires p.blksz > 0 && t in s.thr && WaitOn(s.thr[t]).Some? && ListOk(s.mem.tb)
    requires WaitOn(s.thr[t]).value !in s.mem.tb.list
    requires s1.thr == s.thr && s1.mem == s.mem && s1.file == s.file && s1.lk.w.None? && s1.lk.dl == Some(t) && !s1.life.shutting
    ensures Enabled(p, s1, t, Read(ReadWake))
    ensures var s2 := Apply(p, s1, t, Read(ReadWake));
            && Enabled(p, s2, t, Read(ReadRecheck(0))) && s2.file == s.file
  {
    hide Bad, EarlyCopy;
  }

  /** A sleeper whose listed tracker still points at a transfer that is over would follow the pointer when
      it wakes up. */
  lemma DanglingGoesWrong(p: Params, s: State, c: Tid, t: Tid)
    requires p.blksz > 0 && AtCloseList(s, c) && t in s.thr && WaitOn(s.thr[t]).Some?
    requires WaitOn(s.thr[t]).value in s.mem.tb.list && At(s.mem.tb, WaitOn(s.thr[t]).value).ts.Some?
    ensures var run := [Step(t, Env(Spurious)), Step(t, LockDl), Step(t, Read(ReadWake))];
            IsRun(p, s, run) && After(p, s, run).fault
  {
    Woken(p, s, c, t);
    NoTransfers(s, c);
    hide AtCloseList, IsRun, After, Enabled, Apply, WaitOn, ListOk;
    var s1 := Apply(p, s, t, Env(Spurious));
    Locked(p, s1, c, t);
    var s2 := Apply(p, s1, t, LockDl);
    Dangles(p, s2, t);
    ThreeSteps(p, s, Step(t, Env(Spurious)), Step(t, LockDl), Step(t, Read(ReadWake)));
  }

  lemma NoTransfers(s: State, c: Tid)
    requires AtCloseList(s, c)
    ensures s.mem.ts == map[] && ListOk(s.mem.tb) && !s.life.shutting
  {
  }

  lemma Woken(p: Params, s: State, c: Tid, t: Tid)
    requires p.blksz > 0 && AtCloseList(s, c) && t in s.thr && WaitOn(s.thr[t]).Some?
    ensures Enabled(p, s, t, Env(Spurious))
    ensures var s1 := Apply(p, s, t, Env(Spurious));
            AtCloseList(s1, c) && s1.thr == s.thr && s1.mem == s.mem && s1.life == s.life && t in s1.sig
  {
    hide ListOk, Refs, OnlySleepers;
    var s1 := Apply(p, s, t, Env(Spurious));
    assert OnlySleepers(s1, c) by {
      StillOnly(s, s1, c);
    }
    assert !Bad(p, s, t, Env(Spurious));
  }

  lemma StillOnly(s: State, s': State, c: Tid)
    requires OnlySleepers(s, c) && s.sig <= s'.sig && s'.thr == s.thr && s'.lk == s.lk && s'.life == s.life
    requires s'.mem == s.mem && s'.waiters == s.waiters
    ensures OnlySleepers(s', c)
  {
  }

  lemma Dangles(p: Params, s: State, t: Tid)
    requires p.blksz > 0 && t in s.thr && WaitOn(s.thr[t]).Some? && ListOk(s.mem.tb) && s.mem.ts == map[] && !s.life.shutting
    requires WaitOn(s.thr[t]).value in s.mem.tb.list && At(s.mem.tb, WaitOn(s.thr[t]).value).ts.Some? && HoldsDl(s, t)
    ensures Enabled(p, s, t, Read(ReadWake)) && Apply(p, s, t, Read(ReadWake)).fault
  {
    assert Bad(p, s, t, Read(ReadWake));
    hide Bad, Effect;
  }

  // ----- the exact condition -----

  /** From the moment the bitmap has been released, no outcome of the race for `dl_lock` goes wrong if and
      only if every sleeper's tracker is listed and points at no transfer. */
  lemma SafeIffAllListed(p: Params, s: State, c: Tid)
    requires p.blksz > 0 && AtCloseList(s, c)
    ensures Safe(p, s) <==> AllListed(s)
  {
    hide AtCloseList, Safe, AllListed;
    if AllListed(s) {
      ListedIsSafe(p, s, c);
    } else {
      UnsafeRun(p, s, c);
    }
  }

  lemma ListedIsSafe(p: Params, s: State, c: Tid)
    requires p.blksz > 0 && AtCloseList(s, c) && AllListed(s)
    ensures Safe(p, s)
  {
    assert Racing(s, c);
    hide AtCloseList, Racing, IsRun, After, AllListed;
    forall run: seq<Step> | IsRun(p, s, run)
      ensures !After(p, s, run).fault
    {
      RaceRun(p, s, c, run);
    }
  }

  lemma UnsafeRun(p: Params, s: State, c: Tid)
    requires p.blksz > 0 && AtCloseList(s, c) && !AllListed(s)
    ensures !Safe(p, s)
  {
    hide AtCloseList, IsRun, After;
    var t :| t in s.thr && WaitOn(s.thr[t]).Some? &&
             !(WaitOn(s.thr[t]).value in s.mem.tb.list && At(s.mem.tb, WaitOn(s.thr[t]).value).ts.None?);
    if WaitOn(s.thr[t]).value !in s.mem.tb.list {
      UnlistedGoesWrong(p, s, c, t);
    } else {
      DanglingGoesWrong(p, s, c, t);
    }
  }

  lemma WokenIfUnlisted(s: State, c: Tid, t: Tid)
    requires AtCloseList(s, c) && t in s.thr && WaitOn(s.thr[t]).Some? && WaitOn(s.thr[t]).value !in s.mem.tb.list
    ensures t in s.sig && ListOk(s.mem.tb) && s.file.segFreed && !s.life.shutting
  {
  }

  /** And then each sleeper still sleeps or has returned -EIO, the bitmap and the data file are untouched,
      and the cache is destroyed only at zero waiters. */
  lemma SafeHandshake(p: Params, s: State, c: Tid, run: seq<Step>)
    requires p.blksz > 0 && AtCloseList(s, c) && AllListed(s) && IsRun(p, s, run)
    ensures var s' := After(p, s, run); !s'.fault && s'.file == s.file && LeftProperly(s, s') && (s'.life.gone ==> s'.waiters == 0)
  {
    assert Racing(s, c);
    RaceRun(p, s, c, run);
  }

  /** A listed tracker has a running owner, so with only sleepers left none is listed: the handshake is
      then safe if and only if nobody sleeps. */
  lemma SafeIffNobodySleeps(p: Params, s: State, c: Tid)
    requires p.blksz > 0 && AtCloseList(s, c) && Locals(p, s) && Owners(p, s)
    ensures s.mem.tb.list == []
    ensures Safe(p, s) <==> s.waiters == 0
  {
    SafeIffAllListed(p, s, c);
    NoneListed(p, s, c);
    hide Safe, Locals, Owners, SleepersOk, ListOk;
    if s.waiters == 0 {
      assert Waiting(s.thr) == {};
      assert forall t :: t in s.thr && WaitOn(s.thr[t]).Some? ==> t in Waiting(s.thr);
    } else {
      var t :| t in Waiting(s.thr);
    }
  }

  lemma NoneListed(p: Params, s: State, c: Tid)
    requires p.blksz > 0 && AtCloseList(s, c) && Locals(p, s) && Owners(p, s)
    ensures s.mem.tb.list == []
  {
    NobodyOwns(p, s, c);
    hide SleepersOk, OnlySleepers, LocalOk, Locals, Own, NoRepeats;
    assert forall b: nat :: !Owned(p, s, b);
    assert forall a :: a !in s.mem.tb.list;
    Nothing(s.mem.tb.list);
  }

  lemma NobodyOwns(p: Params, s: State, c: Tid)
    requires p.blksz > 0 && OnlySleepers(s, c) && Locals(p, s)
    ensures forall t :: t in s.thr ==> Own(p, s.thr[t]).None?
  {
    forall t | t in s.thr
      ensures Own(p, s.thr[t]).None?
    {
      assert LocalOk(p, s.thr[t]);
      CacheProgress.RolePc(p, s.thr[t]);
      hide LocalOk;
    }
  }
}
