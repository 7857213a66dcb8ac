/** Every step keeps every part of the invariant. */
module CacheSteps {
  import opened Prelude
  import opened Blocks
  import opened CacheState
  import opened CacheInv

  /** Stands for a thread that does not exist: every view of it is empty. */
  function Dead(): Local {
    Local(Closer, CloseDone, 0, [])
  }

  function Was(s: State, t: Tid): Local {
    if t in s.thr then s.thr[t] else Dead()
  }

  // ----- one thread's record changes -----

  lemma Views(thr: map<Tid, Local>, t: Tid, l: Local)
    ensures var thr' := thr[t := l];
            && SlotHolders(thr') == (if HasSlot(l) then SlotHolders(thr) + {t} else SlotHolders(thr) - {t})
            && Waiting(thr') == (if WaitOn(l).Some? then Waiting(thr) + {t} else Waiting(thr) - {t})
            && Downloaders(thr') == (if Registered(l) then Downloaders(thr) + {t} else Downloaders(thr) - {t})
            && ClosersWaiting(thr') == (if l.role.Closer? && l.pc.CloseWant? then ClosersWaiting(thr) + {t} else ClosersWaiting(thr) - {t})
  {
  }

  lemma Sizes(thr: map<Tid, Local>, t: Tid, l: Local)
    ensures var thr' := thr[t := l];
            var o := if t in thr then thr[t] else Dead();
            && |SlotHolders(thr')| == |SlotHolders(thr)| + Bit(HasSlot(l)) - Bit(HasSlot(o))
            && |Waiting(thr')| == |Waiting(thr)| + Bit(WaitOn(l).Some?) - Bit(WaitOn(o).Some?)
            && |Downloaders(thr')| == |Downloaders(thr)| + Bit(Registered(l)) - Bit(Registered(o))
            && |ClosersWaiting(thr')| == |ClosersWaiting(thr)| + Bit(l.role.Closer? && l.pc.CloseWant?)
                                         - Bit(o.role.Closer? && o.pc.CloseWant?)
  {
    Views(thr, t, l);
    Card(SlotHolders(thr), t);
    Card(Waiting(thr), t);
    Card(Downloaders(thr), t);
    Card(ClosersWaiting(thr), t);
  }

  // ----- what every step of a reader or a downloader has in common -----

  /** Only `t`'s record changes, and the counters and `w_lock` move with it. */
  ghost predicate LocalDelta(s: State, s': State, t: Tid) {
    && t in s.thr && t in s'.thr && s'.thr == s.thr[t := s'.thr[t]]
    && var l, l' := s.thr[t], s'.thr[t];
    && !l.role.Closer? && !l'.role.Closer?
    && s'.waiters - s.waiters == Bit(WaitOn(l').Some?) + Bit(Registered(l')) - Bit(WaitOn(l).Some?) - Bit(Registered(l))
    && s'.sem - s.sem == Bit(HasSlot(l)) - Bit(HasSlot(l')) && s'.sem >= 0
    && (s'.lk.w == if HoldsW(l') then Some(t) else if HoldsW(l) then None else s.lk.w)
    && (HoldsW(l') ==> HoldsW(l) || s.lk.w.None?)
  }

  /** The other locks, the handles and the phase of closing are left alone. */
  ghost predicate SharedDelta(p: Params, s: State, s': State, t: Tid)
    requires p.blksz > 0
  {
    && t in s.thr && t in s'.thr
    && var l, l' := s.thr[t], s'.thr[t];
    && s'.life == s.life && s'.lk.cf == s.lk.cf && s'.lk.x == s.lk.x
    && s'.lk.dl == (if s.lk.dl == Some(t) then None else s.lk.dl)
    && s'.file.segFreed == s.file.segFreed && s'.file.saved == s.file.saved
    && (Feeding(s, t) || HoldsNet(s, t) ==> l'.pc.Transfer? && Cur(p, l') == Cur(p, l))
    && (Active(l') ==> Active(l))
    && (l'.role.Reader? ==> l.role.Reader? && l'.role.call.h == l.role.call.h)
    && s.sig - {t} <= s'.sig
    && (s'.waiters < s.waiters && s'.waiters <= 0 && s.life.shutting ==> ClosersAsleep(s.thr) <= s'.sig)
  }

  /** What the lock invariants say about the acting thread. */
  ghost predicate Facts(s: State, t: Tid) {
    && t in s.thr
    && (HoldsW(s.thr[t]) ==> s.lk.w == Some(t))
    && (s.lk.dl == Some(t) ==> PcWantsDl(s.thr[t]) || HoldsNet(s, t))
    && (HoldsNet(s, t) || Feeding(s, t) ==> s.thr[t].pc.Transfer?)
    && s.sem >= 0
    && s.waiters >= Bit(WaitOn(s.thr[t]).Some?) + Bit(Registered(s.thr[t]))
    && (HasTs(s.thr[t]) ==> t in s.mem.ts)
  }

  lemma GetFacts(p: Params, s: State, t: Tid)
    requires p.blksz > 0 && LocksW(s) && LocksDl(s) && NetOk(p, s) && WaiterCount(s) && SlotCount(p, s) && Transfers(p, s.mem.ts, s.thr)
    requires t in s.thr
    ensures Facts(s, t)
  {
    if WaitOn(s.thr[t]).Some? {
      assert t in Waiting(s.thr);
    }
    if Registered(s.thr[t]) {
      assert t in Downloaders(s.thr);
    }
  }

  lemma LocksKeep(p: Params, s: State, s': State, t: Tid)
    requires p.blksz > 0 && LocksW(s) && LocksCf(s) && LocksDl(s) && LocalDelta(s, s', t) && SharedDelta(p, s, s', t)
    ensures LocksW(s') && LocksCf(s') && LocksDl(s')
  {
  }

  lemma CountsKeep(p: Params, s: State, s': State, t: Tid)
    requires p.blksz > 0 && WaiterCount(s) && SlotCount(p, s) && CloserWakeUp(s) && LocksCf(s) && Phases(s)
    requires LocalDelta(s, s', t) && SharedDelta(p, s, s', t)
    ensures WaiterCount(s') && SlotCount(p, s') && CloserWakeUp(s')
  {
    Sizes(s.thr, t, s'.thr[t]);
  }

  lemma PhasesKeep(p: Params, s: State, s': State, t: Tid)
    requires p.blksz > 0 && LocksCf(s) && Handles(s) && Phases(s)
    requires LocalDelta(s, s', t) && SharedDelta(p, s, s', t)
    ensures Handles(s') && Phases(s')
  {
    Sizes(s.thr, t, s'.thr[t]);
  }

  lemma CheckLocal(p: Params, s: State, t: Tid, act: ReadAct)
    requires p.blksz > 0 && EnabledRead(p, s, t, act) && Facts(s, t)
    requires act.ReadCheck? || act.ReadRecheck?
    ensures LocalDelta(s, EffectRead(p, s, t, act), t)
  {
    hide ReadData, PieceLen, Exists, Cur;
  }

  lemma CheckShared(p: Params, s: State, t: Tid, act: ReadAct)
    requires p.blksz > 0 && EnabledRead(p, s, t, act) && Facts(s, t)
    requires act.ReadCheck? || act.ReadRecheck?
    ensures SharedDelta(p, s, EffectRead(p, s, t, act), t)
  {
    hide ReadData, PieceLen, Exists, Cur, HasSlot, HoldsW, Registered, WaitOn;
  }

  lemma CheckDelta(p: Params, s: State, t: Tid, act: ReadAct)
    requires p.blksz > 0 && EnabledRead(p, s, t, act) && Facts(s, t)
    requires act.ReadCheck? || act.ReadRecheck?
    ensures var s' := EffectRead(p, s, t, act); LocalDelta(s, s', t) && SharedDelta(p, s, s', t)
  {
    hide EffectRead, EnabledRead, Facts, LocalDelta, SharedDelta;
    CheckLocal(p, s, t, act);
    CheckShared(p, s, t, act);
  }

  lemma FindLocal(p: Params, s: State, t: Tid, act: ReadAct)
    requires p.blksz > 0 && EnabledRead(p, s, t, act) && Facts(s, t)
    requires act.ReadFind?
    ensures LocalDelta(s, EffectRead(p, s, t, act), t)
  {
    hide FindTracker, RefTracker, EarlyCopy, Cur, WakeCloser;
  }

  lemma FindShared(p: Params, s: State, t: Tid, act: ReadAct)
    requires p.blksz > 0 && EnabledRead(p, s, t, act) && Facts(s, t)
    requires act.ReadFind?
    ensures SharedDelta(p, s, EffectRead(p, s, t, act), t)
  {
    hide FindTracker, RefTracker, EarlyCopy, Cur, HasSlot, HoldsW, Registered;
  }

  lemma FindDelta(p: Params, s: State, t: Tid, act: ReadAct)
    requires p.blksz > 0 && EnabledRead(p, s, t, act) && Facts(s, t)
    requires act.ReadFind?
    ensures var s' := EffectRead(p, s, t, act); LocalDelta(s, s', t) && SharedDelta(p, s, s', t)
  {
    hide EffectRead, EnabledRead, Facts, LocalDelta, SharedDelta;
    FindLocal(p, s, t, act);
    FindShared(p, s, t, act);
  }

  lemma TrySlotDelta(p: Params, s: State, t: Tid, act: ReadAct)
    requires p.blksz > 0 && EnabledRead(p, s, t, act) && Facts(s, t)
    requires act.ReadTrySlot?
    ensures var s' := EffectRead(p, s, t, act); LocalDelta(s, s', t) && SharedDelta(p, s, s', t)
  {
    hide Cur;
  }

  lemma TryAheadDelta(p: Params, s: State, t: Tid, act: ReadAct)
    requires p.blksz > 0 && EnabledRead(p, s, t, act) && Facts(s, t)
    requires act.ReadTryAhead?
    ensures var s' := EffectRead(p, s, t, act); LocalDelta(s, s', t) && SharedDelta(p, s, s', t)
  {
    hide Cur;
  }

  lemma BackOffDelta(p: Params, s: State, t: Tid, act: ReadAct)
    requires p.blksz > 0 && EnabledRead(p, s, t, act) && Facts(s, t)
    requires act.ReadBackOff?
    ensures var s' := EffectRead(p, s, t, act); LocalDelta(s, s', t) && SharedDelta(p, s, s', t)
  {
    hide Cur;
  }

  lemma SlotDelta(p: Params, s: State, t: Tid, act: ReadAct)
    requires p.blksz > 0 && EnabledRead(p, s, t, act) && Facts(s, t)
    requires act.ReadTrySlot? || act.ReadBackOff? || act.ReadTryAhead?
    ensures var s' := EffectRead(p, s, t, act); LocalDelta(s, s', t) && SharedDelta(p, s, s', t)
  {
    hide EffectRead, EnabledRead, Facts, LocalDelta, SharedDelta;
    if act.ReadTrySlot? {
      TrySlotDelta(p, s, t, act);
    } else if act.ReadTryAhead? {
      TryAheadDelta(p, s, t, act);
    } else {
      BackOffDelta(p, s, t, act);
    }
  }

  lemma RegisterDelta(p: Params, s: State, t: Tid, act: ReadAct)
    requires p.blksz > 0 && EnabledRead(p, s, t, act) && Facts(s, t)
    requires act.ReadLaunch? || act.ReadRegister?
    ensures var s' := EffectRead(p, s, t, act); LocalDelta(s, s', t) && SharedDelta(p, s, s', t)
  {
    hide FindTracker, AddTracker, Cur;
  }

  lemma WakeLocal(p: Params, s: State, t: Tid, act: ReadAct)
    requires p.blksz > 0 && EnabledRead(p, s, t, act) && Facts(s, t)
    requires act.ReadWake?
    ensures LocalDelta(s, EffectRead(p, s, t, act), t)
  {
    hide UnrefTracker, EarlyCopy, Cur, WakeCloser;
  }

  lemma WakeShared(p: Params, s: State, t: Tid, act: ReadAct)
    requires p.blksz > 0 && EnabledRead(p, s, t, act) && Facts(s, t)
    requires act.ReadWake?
    ensures SharedDelta(p, s, EffectRead(p, s, t, act), t)
  {
    hide UnrefTracker, EarlyCopy, Cur, HasSlot, HoldsW, Registered;
  }

  lemma WakeDelta(p: Params, s: State, t: Tid, act: ReadAct)
    requires p.blksz > 0 && EnabledRead(p, s, t, act) && Facts(s, t)
    requires act.ReadWake?
    ensures var s' := EffectRead(p, s, t, act); LocalDelta(s, s', t) && SharedDelta(p, s, s', t)
  {
    hide EffectRead, EnabledRead, Facts, LocalDelta, SharedDelta;
    WakeLocal(p, s, t, act);
    WakeShared(p, s, t, act);
  }

  lemma SyncAddDelta(p: Params, s: State, t: Tid, act: ReadAct)
    requires p.blksz > 0 && EnabledRead(p, s, t, act) && Facts(s, t)
    requires act.ReadSyncAdd?
    ensures var s' := EffectRead(p, s, t, act); LocalDelta(s, s', t) && SharedDelta(p, s, s', t)
  {
    hide FindTracker, AddTracker, Cur;
  }

  lemma StoreDelta(p: Params, s: State, t: Tid, act: ReadAct)
    requires p.blksz > 0 && EnabledRead(p, s, t, act) && Facts(s, t)
    requires act.ReadStore?
    ensures var s' := EffectRead(p, s, t, act); LocalDelta(s, s', t) && SharedDelta(p, s, s', t)
  {
    hide WriteData, Mark, PieceLen, Skip, Usable, Cur;
  }

  lemma UntrackDelta(p: Params, s: State, t: Tid, act: ReadAct)
    requires p.blksz > 0 && EnabledRead(p, s, t, act) && Facts(s, t)
    requires act.ReadUntrack?
    ensures var s' := EffectRead(p, s, t, act); LocalDelta(s, s', t) && SharedDelta(p, s, s', t)
  {
    hide FindTracker, RemoveTracker, Cur;
  }

  lemma AheadDelta(p: Params, s: State, t: Tid, act: ReadAct)
    requires p.blksz > 0 && EnabledRead(p, s, t, act) && Facts(s, t)
    requires act.ReadPeek? || act.ReadLockAhead?
    ensures var s' := EffectRead(p, s, t, act); LocalDelta(s, s', t) && SharedDelta(p, s, s', t)
  {
    hide HasNext, Exists, Cur;
  }

  lemma FindAheadDelta(p: Params, s: State, t: Tid, act: ReadAct)
    requires p.blksz > 0 && EnabledRead(p, s, t, act) && Facts(s, t)
    requires act.ReadFindAhead?
    ensures var s' := EffectRead(p, s, t, act); LocalDelta(s, s', t) && SharedDelta(p, s, s', t)
  {
    hide FindTracker, AddTracker, Cur;
  }

  lemma EndPieceDelta(p: Params, s: State, t: Tid, act: ReadAct)
    requires p.blksz > 0 && EnabledRead(p, s, t, act) && Facts(s, t)
    requires act.ReadEndPiece?
    ensures var s' := EffectRead(p, s, t, act); LocalDelta(s, s', t) && SharedDelta(p, s, s', t)
  {
    hide PieceLen, Cur;
  }

  lemma AttachDelta(p: Params, s: State, t: Tid, act: DownAct)
    requires p.blksz > 0 && EnabledDown(s, t, act) && Facts(s, t)
    requires act.DownAttach?
    ensures var s' := EffectDown(p, s, t, act); LocalDelta(s, s', t) && SharedDelta(p, s, s', t)
  {
  }

  lemma TransferDelta(p: Params, s: State, t: Tid, act: DownAct)
    requires p.blksz > 0 && EnabledDown(s, t, act) && Facts(s, t)
    requires act.DownAddHandle? || act.DownLeave?
    ensures var s' := EffectDown(p, s, t, act); LocalDelta(s, s', t) && SharedDelta(p, s, s', t)
  {
  }

  lemma DetachDelta(p: Params, s: State, t: Tid, act: DownAct)
    requires p.blksz > 0 && EnabledDown(s, t, act) && Facts(s, t)
    requires act.DownDetach?
    ensures var s' := EffectDown(p, s, t, act); LocalDelta(s, s', t) && SharedDelta(p, s, s', t)
  {
  }

  lemma BgStoreDelta(p: Params, s: State, t: Tid, act: DownAct)
    requires p.blksz > 0 && EnabledDown(s, t, act) && Facts(s, t)
    requires act.DownStore? || act.DownPost?
    ensures var s' := EffectDown(p, s, t, act); LocalDelta(s, s', t) && SharedDelta(p, s, s', t)
  {
  }

  lemma BgUntrackDelta(p: Params, s: State, t: Tid, act: DownAct)
    requires p.blksz > 0 && EnabledDown(s, t, act) && Facts(s, t)
    requires act.DownUntrack?
    ensures var s' := EffectDown(p, s, t, act); LocalDelta(s, s', t) && SharedDelta(p, s, s', t)
  {
  }

}
