/** Each step of a reader or a downloader keeps the invariant. */
module CacheKeep {
  import opened Prelude
  import opened Blocks
  import opened CacheState
  import opened CacheInv
  import opened CacheTable
  import opened CacheSteps
  import opened CacheMem
  import opened CachePieces

  lemma NetKeeps(p: Params, s: State, s': State, t: Tid)
    requires p.blksz > 0 && NetOk(p, s) && LocalDelta(s, s', t) && SharedDelta(p, s, s', t)
    requires s.lk.x.XCallback? && s.lk.x.to in s.mem.ts ==> s.lk.x.to in s'.mem.ts && s'.mem.ts[s.lk.x.to] == s.mem.ts[s.lk.x.to]
    ensures NetOk(p, s')
  {
  }

  lemma LocalsKeep(p: Params, s: State, s': State, t: Tid)
    requires p.blksz > 0 && Locals(p, s) && t in s'.thr && s'.thr == s.thr[t := s'.thr[t]] && LocalOk(p, s'.thr[t])
    ensures Locals(p, s')
  {
    hide LocalOk;
  }

  lemma MissesKeep(p: Params, seg: seq<bool>, thr: map<Tid, Local>, t: Tid, l: Local)
    requires p.blksz > 0 && Misses(p, seg, thr) && MissOk(p, seg, l)
    ensures Misses(p, seg, thr[t := l])
  {
    hide MissOk;
  }

  lemma DeltaShape(s: State, s': State, t: Tid)
    requires LocalDelta(s, s', t)
    ensures t in s'.thr && s'.thr == s.thr[t := s'.thr[t]]
  {
  }

  lemma SettleShared(p: Params, s: State, s': State, t: Tid, seg0: seq<bool>)
    requires p.blksz > 0 && Core(p, s, seg0) && LocalDelta(s, s', t) && SharedDelta(p, s, s', t)
    requires s.lk.x.XCallback? && s.lk.x.to in s.mem.ts ==> s.lk.x.to in s'.mem.ts && s'.mem.ts[s.lk.x.to] == s.mem.ts[s.lk.x.to]
    requires LocalOk(p, s'.thr[t])
    ensures CommonInv(p, s') && Locals(p, s')
  {
    hide Locals, LocksW, LocksCf, LocksDl, NetOk, WaiterCount, SlotCount, CloserWakeUp, Handles, Phases, MemInv, FileInv, LocalOk;
    LocksKeep(p, s, s', t);
    CountsKeep(p, s, s', t);
    PhasesKeep(p, s, s', t);
    NetKeeps(p, s, s', t);
    LocalsKeep(p, s, s', t);
  }

  /** The step only changed what `LocalDelta` and `SharedDelta` describe, and the trackers are in order. */
  lemma Settle(p: Params, s: State, s': State, t: Tid, seg0: seq<bool>)
    requires p.blksz > 0 && Core(p, s, seg0) && LocalDelta(s, s', t) && SharedDelta(p, s, s', t)
    requires s.lk.x.XCallback? && s.lk.x.to in s.mem.ts ==> s.lk.x.to in s'.mem.ts && s'.mem.ts[s.lk.x.to] == s.mem.ts[s.lk.x.to]
    requires MemInv(p, s') && LocalOk(p, s'.thr[t])
    requires s'.file == s.file && MissOk(p, s.file.seg, s'.thr[t])
    ensures Core(p, s', seg0)
  {
    hide CommonInv, Locals, MemInv, Coherent, LogOk, Misses, LocalOk, MissOk, LocalDelta, SharedDelta;
    SettleShared(p, s, s', t, seg0);
    assert s'.thr == s.thr[t := s'.thr[t]] by {
      DeltaShape(s, s', t);
    }
    MissesKeep(p, s.file.seg, s.thr, t, s'.thr[t]);
    assert Saved(s');
  }

  /** The parts of the invariant a step works with. */
  lemma Open(p: Params, s: State, t: Tid, seg0: seq<bool>)
    requires p.blksz > 0 && Core(p, s, seg0) && t in s.thr
    ensures Facts(s, t) && MemInv(p, s) && LocalOk(p, s.thr[t]) && MissOk(p, s.file.seg, s.thr[t])
    ensures Coherent(p, s.file.seg, s.file.disk)
  {
    hide LocksCf, CloserWakeUp, Handles, Phases, Coherent, LogOk, LocalOk, MissOk, Ledger, Owners, WakeUps, ListOk;
    GetFacts(p, s, t);
  }

  /** Nothing about trackers changes for the thread: same block, same wait, same ownership. */
  ghost predicate StaysPut(p: Params, s: State, s': State, t: Tid)
    requires p.blksz > 0
  {
    && ThreadStep(s, s', t) && s'.mem == s.mem && s'.file == s.file
    && SameWork(p, s.thr[t], s'.thr[t]) && Own(p, s'.thr[t]) == Own(p, s.thr[t])
    && WaitOn(s'.thr[t]).None?
  }

  lemma StayKeeps(p: Params, s: State, s': State, t: Tid, seg0: seq<bool>)
    requires p.blksz > 0 && Core(p, s, seg0) && LocalDelta(s, s', t) && SharedDelta(p, s, s', t) && StaysPut(p, s, s', t)
    requires LocalOk(p, s'.thr[t]) && MissOk(p, s.file.seg, s'.thr[t])
    ensures Core(p, s', seg0)
  {
    hide Core, LocalDelta, SharedDelta, MemInv, LocalOk, MissOk, SameWork;
    Open(p, s, t, seg0);
    NoMemChange(p, s, s', t);
    Settle(p, s, s', t, seg0);
  }

  // ----- looking at the bitmap -----

  lemma CheckStays(p: Params, s: State, t: Tid, act: ReadAct)
    requires p.blksz > 0 && EnabledRead(p, s, t, act) && (act.ReadCheck? || act.ReadRecheck?)
    ensures StaysPut(p, s, EffectRead(p, s, t, act), t)
  {
    hide ReadData, PieceLen, Exists;
  }

  lemma CheckMiss(p: Params, s: State, t: Tid, act: ReadAct)
    requires p.blksz > 0 && EnabledRead(p, s, t, act) && (act.ReadCheck? || act.ReadRecheck?)
    requires MissOk(p, s.file.seg, s.thr[t])
    ensures MissOk(p, s.file.seg, EffectRead(p, s, t, act).thr[t])
  {
    hide ReadData, PieceLen;
  }

  lemma CheckLocal(p: Params, s: State, t: Tid, act: ReadAct)
    requires p.blksz > 0 && EnabledRead(p, s, t, act) && (act.ReadCheck? || act.ReadRecheck?)
    requires LocalOk(p, s.thr[t]) && Coherent(p, s.file.seg, s.file.disk)
    ensures LocalOk(p, EffectRead(p, s, t, act).thr[t])
  {
    hide Coherent, LocalOk, ServedFromDisk;
    if Exists(s.file.seg, Cur(p, s.thr[t])) {
      FromDisk(p, s.thr[t], s.file, act.io);
    } else {
      Moved(p, s.thr[t], if act.ReadCheck? then Find else SyncAdd);
    }
  }

  lemma KeepCheck(p: Params, s: State, t: Tid, act: ReadAct, seg0: seq<bool>)
    requires p.blksz > 0 && Core(p, s, seg0) && EnabledRead(p, s, t, act) && (act.ReadCheck? || act.ReadRecheck?)
    ensures Core(p, EffectRead(p, s, t, act), seg0)
  {
    hide Core, MemInv, LocalOk, MissOk, LocalDelta, SharedDelta, StaysPut, EffectRead;
    Open(p, s, t, seg0);
    CheckDelta(p, s, t, act);
    CheckStays(p, s, t, act);
    CheckMiss(p, s, t, act);
    CheckLocal(p, s, t, act);
    StayKeeps(p, s, EffectRead(p, s, t, act), t, seg0);
  }

  // ----- steps that only move on -----

  ghost predicate MovesOn(act: ReadAct) {
    act.ReadTrySlot? || act.ReadTryAhead? || act.ReadBackOff? || act.ReadRegister? || act.ReadPeek? || act.ReadLockAhead?
  }

  lemma SlotStays(p: Params, s: State, t: Tid, act: ReadAct)
    requires p.blksz > 0 && EnabledRead(p, s, t, act)
    requires act.ReadTrySlot? || act.ReadTryAhead? || act.ReadBackOff?
    ensures StaysPut(p, s, EffectRead(p, s, t, act), t)
  {
    hide SawMissing;
  }

  lemma SlotMiss(p: Params, s: State, t: Tid, act: ReadAct)
    requires p.blksz > 0 && EnabledRead(p, s, t, act) && MissOk(p, s.file.seg, s.thr[t])
    requires act.ReadTrySlot? || act.ReadTryAhead? || act.ReadBackOff?
    ensures MissOk(p, s.file.seg, EffectRead(p, s, t, act).thr[t])
  {
    hide Exists;
  }

  lemma AheadStays(p: Params, s: State, t: Tid, act: ReadAct)
    requires p.blksz > 0 && EnabledRead(p, s, t, act)
    requires act.ReadRegister? || act.ReadPeek? || act.ReadLockAhead?
    ensures StaysPut(p, s, EffectRead(p, s, t, act), t)
  {
    hide Exists, HasNext, SawMissing;
  }

  lemma AheadMiss(p: Params, s: State, t: Tid, act: ReadAct)
    requires p.blksz > 0 && EnabledRead(p, s, t, act) && MissOk(p, s.file.seg, s.thr[t])
    requires act.ReadRegister? || act.ReadPeek? || act.ReadLockAhead?
    ensures MissOk(p, s.file.seg, EffectRead(p, s, t, act).thr[t])
  {
    hide HasNext;
  }

  lemma MoveLocal(p: Params, s: State, t: Tid, act: ReadAct)
    requires p.blksz > 0 && EnabledRead(p, s, t, act) && MovesOn(act) && LocalOk(p, s.thr[t])
    ensures LocalOk(p, EffectRead(p, s, t, act).thr[t])
  {
    hide LocalOk;
    var l' := EffectRead(p, s, t, act).thr[t];
    Moved(p, s.thr[t], l'.pc);
  }

  lemma KeepMove(p: Params, s: State, t: Tid, act: ReadAct, seg0: seq<bool>)
    requires p.blksz > 0 && Core(p, s, seg0) && EnabledRead(p, s, t, act) && MovesOn(act)
    ensures Core(p, EffectRead(p, s, t, act), seg0)
  {
    hide Core, MemInv, LocalOk, MissOk, LocalDelta, SharedDelta, StaysPut, EffectRead;
    Open(p, s, t, seg0);
    if act.ReadTrySlot? || act.ReadBackOff? || act.ReadTryAhead? {
      SlotDelta(p, s, t, act);
      SlotStays(p, s, t, act);
      SlotMiss(p, s, t, act);
    } else {
      if act.ReadRegister? {
        RegisterDelta(p, s, t, act);
      } else {
        AheadDelta(p, s, t, act);
      }
      AheadStays(p, s, t, act);
      AheadMiss(p, s, t, act);
    }
    MoveLocal(p, s, t, act);
    StayKeeps(p, s, EffectRead(p, s, t, act), t, seg0);
  }

  lemma EndPieceStays(p: Params, s: State, t: Tid, act: ReadAct)
    requires p.blksz > 0 && EnabledRead(p, s, t, act) && act.ReadEndPiece?
    ensures var s' := EffectRead(p, s, t, act);
            StaysPut(p, s, s', t) && MissOk(p, s.file.seg, s'.thr[t]) && s'.thr[t] == AfterPiece(p, s.thr[t])
  {
    hide PieceLen, Exists;
  }

  lemma KeepEndPiece(p: Params, s: State, t: Tid, act: ReadAct, seg0: seq<bool>)
    requires p.blksz > 0 && Core(p, s, seg0) && EnabledRead(p, s, t, act) && act.ReadEndPiece?
    ensures Core(p, EffectRead(p, s, t, act), seg0)
  {
    hide Core, MemInv, LocalOk, MissOk, LocalDelta, SharedDelta, StaysPut, EffectRead, AfterPiece;
    Open(p, s, t, seg0);
    EndPieceDelta(p, s, t, act);
    EndPieceStays(p, s, t, act);
    NextPiece(p, s.thr[t]);
    StayKeeps(p, s, EffectRead(p, s, t, act), t, seg0);
  }

  // ----- joining and leaving the waiters of a tracker -----

  /** A waiter that goes to sleep sleeps on its tracker, is not being shut out, and has not been served. */
  ghost predicate WaitsRightly(p: Params, s: State, l: Local, l': Local, a: Aid)
    requires p.blksz > 0 && l'.role.Reader?
  {
    l'.pc.Asleep? ==>
      && l'.pc.a == a && !s.life.shutting && a in s.mem.tb.list && l'.role == l.role
      && var u := At(s.mem.tb, a).ts; u.Some? && u.value in s.mem.ts ==> |s.mem.ts[u.value].data| < Need(p, l'.role.call)
  }

  lemma WaitOutcome(p: Params, s: State, t: Tid, a: Aid)
    requires p.blksz > 0 && IsReader(s, t) && (s.thr[t].pc.Find? || s.thr[t].pc.Asleep?) && LocalOk(p, s.thr[t])
    requires MemInv(p, s) && a in s.mem.tb.heap && s.mem.tb.heap[a].blk == Cur(p, s.thr[t])
    ensures var l' := AfterWait(p, s.mem, s.life.shutting, s.thr[t], a);
            LocalOk(p, l') && l'.role.Reader? && Cur(p, l') == Cur(p, s.thr[t]) && WaitsRightly(p, s, s.thr[t], l', a)
  {
    LinkedListed(p, s, a);
    hide LocalOk, MemInv, AfterWait, WaitsRightly;
    if !s.life.shutting && a in s.mem.tb.list {
      PointedAt(p, s, s.thr[t], a);
      WaitGoesOn(p, s, s.thr[t], a);
    } else {
      WaitIsOver(p, s, s.thr[t], a);
    }
    AfterWaitPc(p, s.mem, s.life.shutting, s.thr[t], a);
  }

  lemma WaitGoesOn(p: Params, s: State, l: Local, a: Aid)
    requires p.blksz > 0 && l.role.Reader? && (l.pc.Find? || l.pc.Asleep?) && LocalOk(p, l) && Feeds(p, s.mem, l, a)
    requires !s.life.shutting && a in s.mem.tb.list && !At(s.mem.tb, a).unlinked
    ensures var l' := AfterWait(p, s.mem, false, l, a); LocalOk(p, l') && l'.role.Reader? && WaitsRightly(p, s, l, l', a)
  {
    hide LocalOk, EarlyCopy, Need, Feeds;
    EarlyCopyIs(p, s.mem, l, a);
    Moved(p, l, Asleep(a));
  }

  lemma WaitIsOver(p: Params, s: State, l: Local, a: Aid)
    requires p.blksz > 0 && l.role.Reader? && (l.pc.Find? || l.pc.Asleep?) && LocalOk(p, l)
    requires s.life.shutting || At(s.mem.tb, a).unlinked
    ensures var l' := AfterWait(p, s.mem, s.life.shutting, l, a);
            LocalOk(p, l') && l'.role.Reader? && WaitsRightly(p, s, l, l', a)
  {
    hide LocalOk, EarlyCopy, Need;
    GaveUp(p, l);
    Moved(p, l, Recheck);
  }

  lemma LinkedListed(p: Params, s: State, a: Aid)
    requires p.blksz > 0 && MemInv(p, s) && a in s.mem.tb.heap
    ensures At(s.mem.tb, a).unlinked <==> a !in s.mem.tb.list
  {
    hide Transfers, Ledger, Owners, WakeUps;
  }

  /** The transfer a listed tracker points at, if any, holds a prefix of the tracker's block. */
  ghost predicate Feeds(p: Params, mem: Mem, l: Local, a: Aid)
    requires p.blksz > 0
  {
    var u := At(mem.tb, a).ts;
    u.Some? && u.value in mem.ts ==> TsOk(p, l, mem.ts[u.value])
  }

  lemma PointedAt(p: Params, s: State, l: Local, a: Aid)
    requires p.blksz > 0 && MemInv(p, s) && a in s.mem.tb.list && a in s.mem.tb.heap && s.mem.tb.heap[a].blk == Cur(p, l)
    ensures Feeds(p, s.mem, l, a)
  {
    hide ListOk, Owners, WakeUps, Refs, WaitsOk, Cur, Size, Lo;
  }

  /** What a waiter may copy is its piece; if it may not copy, too few bytes have arrived. */
  lemma EarlyCopyIs(p: Params, mem: Mem, l: Local, a: Aid)
    requires p.blksz > 0 && l.role.Reader? && (l.pc.Find? || l.pc.Asleep?) && LocalOk(p, l) && Feeds(p, mem, l, a)
    ensures match EarlyCopy(p, mem, l.role.call, a)
            case Some(bytes) => LocalOk(p, l.(ret := |bytes|, buf := bytes, pc := Peek))
            case None => var u := At(mem.tb, a).ts; u.Some? && u.value in mem.ts ==> |mem.ts[u.value].data| < Need(p, l.role.call)
  {
    PieceInBlock(p, l);
    hide LocalOk, PieceLen, Skip, Cur, Lo, Size;
    var u := At(mem.tb, a).ts;
    if u.Some? && u.value in mem.ts && |mem.ts[u.value].data| >= Need(p, l.role.call) {
      CopyIsPiece(p, l, mem.ts[u.value].data);
      FromTransfer(p, l, mem.ts[u.value].data[Skip(p, l.role.call)..Need(p, l.role.call)]);
    }
  }

  lemma GaveUp(p: Params, l: Local)
    requires p.blksz > 0 && l.role.Reader? && !l.pc.Done? && LocalOk(p, l)
    ensures LocalOk(p, l.(ret := -EIO, buf := [], pc := Done(-EIO), role := Reader(l.role.call.(clean := false))))
  {
  }

  lemma SleepsRightly(p: Params, s: State, s': State, t: Tid, a: Aid)
    requires p.blksz > 0 && IsReader(s, t) && IsReader(s', t) && s'.thr[t].pc.Asleep? && WaitsRightly(p, s, s.thr[t], s'.thr[t], a)
    requires s'.life == s.life && s'.mem.ts == s.mem.ts && s'.mem.tb.list == s.mem.tb.list
    requires At(s'.mem.tb, a).ts == At(s.mem.tb, a).ts
    ensures MaySleep(p, s', t) && s'.thr[t].pc.a == a && a in s.mem.tb.list
  {
    hide Need;
  }

  /** The reader sleeps on the tracker of its block, with a reference of its own, or goes on with its trackers
      unchanged. */
  ghost predicate Joins(p: Params, s: State, s': State, t: Tid)
    requires p.blksz > 0
  {
    && ThreadStep(s, s', t) && s'.file == s.file && s'.mem.ts == s.mem.ts && LocalOk(p, s'.thr[t])
    && MissOk(p, s.file.seg, s'.thr[t])
    && (WaitOn(s'.thr[t]).None? ==> StaysPut(p, s, s', t))
    && (WaitOn(s'.thr[t]).Some? ==>
          var a := WaitOn(s'.thr[t]).value;
          && a in s.mem.tb.list && a in s.mem.tb.heap && s'.mem == s.mem.(tb := RefTracker(s.mem.tb, a))
          && s.mem.tb.heap[a].blk == Cur(p, s'.thr[t]) && MaySleep(p, s', t)
          && !HasTs(s'.thr[t]) && Own(p, s'.thr[t]).None?)
  }

  lemma GoesOnAlone(p: Params, s: State, t: Tid)
    requires p.blksz > 0 && IsReader(s, t) && s.thr[t].pc.Find? && LocalOk(p, s.thr[t]) && MissOk(p, s.file.seg, s.thr[t])
    requires FindTracker(s.mem.tb, Cur(p, s.thr[t])).None?
    ensures Joins(p, s, DoFind(p, s, t), t)
  {
    hide LocalOk, Exists, FindTracker;
    Moved(p, s.thr[t], TrySlot);
  }

  lemma GoesOnWith(p: Params, s: State, t: Tid)
    requires p.blksz > 0 && IsReader(s, t) && s.thr[t].pc.Find? && MemInv(p, s) && LocalOk(p, s.thr[t])
    requires FindTracker(s.mem.tb, Cur(p, s.thr[t])).Some?
    ensures Joins(p, s, DoFind(p, s, t), t)
  {
    hide LocalOk, MemInv, AfterWait, FindTracker, EarlyCopy, MaySleep, WaitsRightly, Exists;
    FoundIs(s.mem.tb, Cur(p, s.thr[t]));
    var a := FindTracker(s.mem.tb, Cur(p, s.thr[t])).value;
    WaitOutcome(p, s, t, a);
    AfterWaitPc(p, s.mem, s.life.shutting, s.thr[t], a);
    if DoFind(p, s, t).thr[t].pc.Asleep? {
      SleepsRightly(p, s, DoFind(p, s, t), t, a);
    }
  }

  lemma FindShape(p: Params, s: State, t: Tid)
    requires p.blksz > 0 && IsReader(s, t) && s.thr[t].pc.Find? && MemInv(p, s) && LocalOk(p, s.thr[t])
    requires MissOk(p, s.file.seg, s.thr[t])
    ensures Joins(p, s, DoFind(p, s, t), t)
  {
    hide MemInv, LocalOk, MissOk, Joins, DoFind;
    if FindTracker(s.mem.tb, Cur(p, s.thr[t])).None? {
      GoesOnAlone(p, s, t);
    } else {
      GoesOnWith(p, s, t);
    }
  }

  lemma AfterWaitPc(p: Params, mem: Mem, shutting: bool, l: Local, a: Aid)
    requires l.role.Reader? && p.blksz > 0
    ensures var l' := AfterWait(p, mem, shutting, l, a);
            && l'.role.Reader? && Cur(p, l') == Cur(p, l)
            && (l'.pc.Asleep? || l'.pc.Peek? || l'.pc.Recheck? || l'.pc.Done?)
  {
  }

  lemma KeepFind(p: Params, s: State, t: Tid, act: ReadAct, seg0: seq<bool>)
    requires p.blksz > 0 && Core(p, s, seg0) && EnabledRead(p, s, t, act) && act.ReadFind?
    ensures Core(p, EffectRead(p, s, t, act), seg0)
  {
    hide Core, MemInv, LocalOk, MissOk, LocalDelta, SharedDelta, StaysPut, DoFind, MaySleep;
    Open(p, s, t, seg0);
    FindDelta(p, s, t, act);
    FindShape(p, s, t);
    var s' := EffectRead(p, s, t, act);
    if WaitOn(s'.thr[t]).None? {
      StayKeeps(p, s, s', t, seg0);
    } else {
      JoinMem(p, s, s', t, WaitOn(s'.thr[t]).value);
      Settle(p, s, s', t, seg0);
    }
  }

  /** A woken reader sleeps on, or leaves and gives back its reference. */
  ghost predicate Leaves(p: Params, s: State, s': State, t: Tid)
    requires p.blksz > 0
  {
    && ThreadStep(s, s', t) && s'.file == s.file && s'.mem.ts == s.mem.ts && LocalOk(p, s'.thr[t])
    && MissOk(p, s.file.seg, s'.thr[t])
    && !HasTs(s.thr[t]) && !HasTs(s'.thr[t]) && Own(p, s'.thr[t]).None? && Own(p, s.thr[t]).None?
    && Cur(p, s'.thr[t]) == Cur(p, s.thr[t])
    && (WaitOn(s'.thr[t]).Some? ==> s'.mem == s.mem && WaitOn(s'.thr[t]) == WaitOn(s.thr[t]) && MaySleep(p, s', t))
    && (WaitOn(s'.thr[t]).None? ==> WaitOn(s.thr[t]).Some?
                                    && s'.mem == s.mem.(tb := UnrefTracker(s.mem.tb, WaitOn(s.thr[t]).value)))
  }

  lemma SleepsOnOwn(p: Params, s: State, t: Tid)
    requires p.blksz > 0 && MemInv(p, s) && IsReader(s, t) && s.thr[t].pc.Asleep?
    ensures s.thr[t].pc.a in s.mem.tb.heap && s.mem.tb.heap[s.thr[t].pc.a].blk == Cur(p, s.thr[t])
  {
    hide Owners, WakeUps, Refs, ListOk, Transfers, AttachesOk, PointersOk, Cur;
    assert WaitOn(s.thr[t]) == Some(s.thr[t].pc.a);
  }

  lemma WakeShape(p: Params, s: State, t: Tid)
    requires p.blksz > 0 && IsReader(s, t) && s.thr[t].pc.Asleep? && MemInv(p, s) && LocalOk(p, s.thr[t])
    ensures Leaves(p, s, DoWake(p, s, t), t)
  {
    hide LocalOk, MemInv, AfterWait, EarlyCopy, MaySleep, WaitsRightly, Cur, UnrefTracker;
    var a := s.thr[t].pc.a;
    SleepsOnOwn(p, s, t);
    WaitOutcome(p, s, t, a);
    AfterWaitPc(p, s.mem, s.life.shutting, s.thr[t], a);
    if DoWake(p, s, t).thr[t].pc.Asleep? {
      SleepsRightly(p, s, DoWake(p, s, t), t, a);
    }
  }

  lemma KeepWake(p: Params, s: State, t: Tid, act: ReadAct, seg0: seq<bool>)
    requires p.blksz > 0 && Core(p, s, seg0) && EnabledRead(p, s, t, act) && act.ReadWake?
    ensures Core(p, EffectRead(p, s, t, act), seg0)
  {
    hide Core, MemInv, LocalOk, MissOk, LocalDelta, SharedDelta, StaysPut, DoWake;
    Open(p, s, t, seg0);
    WakeDelta(p, s, t, act);
    WakeShape(p, s, t);
    var s' := EffectRead(p, s, t, act);
    if WaitOn(s'.thr[t]).Some? {
      NoMemChange(p, s, s', t);
    } else {
      LeaveMem(p, s, s', t, WaitOn(s.thr[t]).value);
    }
    Settle(p, s, s', t, seg0);
  }

  // ----- adding and removing the tracker of a download -----

  /** The thread owns nothing before; if it owns a block afterwards it has added the block's tracker. */
  ghost predicate AddsOwn(p: Params, s: State, s': State, t: Tid, a: Aid)
    requires p.blksz > 0
  {
    && ThreadStep(s, s', t) && s'.file == s.file && s'.mem.ts == s.mem.ts
    && WaitOn(s.thr[t]).None? && WaitOn(s'.thr[t]).None? && !HasTs(s.thr[t]) && !HasTs(s'.thr[t])
    && Own(p, s.thr[t]).None?
    && var o := Own(p, s'.thr[t]);
    && (o.None? ==> s'.mem == s.mem)
    && (o.Some? ==> s'.mem == s.mem.(tb := AddTracker(s.mem.tb, a, o.value)) && FindTracker(s.mem.tb, o.value).None?)
  }

  lemma LaunchShape(p: Params, s: State, t: Tid, act: ReadAct)
    requires p.blksz > 0 && EnabledRead(p, s, t, act) && act.ReadLaunch?
    ensures AddsOwn(p, s, EffectRead(p, s, t, act), t, act.a)
  {
    hide FindTracker, AddTracker;
  }

  lemma SyncAddShape(p: Params, s: State, t: Tid, act: ReadAct)
    requires p.blksz > 0 && EnabledRead(p, s, t, act) && act.ReadSyncAdd?
    ensures AddsOwn(p, s, EffectRead(p, s, t, act), t, act.a)
  {
    hide FindTracker, AddTracker;
  }

  lemma AddAheadShape(p: Params, s: State, t: Tid, act: ReadAct)
    requires p.blksz > 0 && EnabledRead(p, s, t, act) && act.ReadFindAhead?
    ensures AddsOwn(p, s, EffectRead(p, s, t, act), t, act.a)
  {
    hide FindTracker, AddTracker;
  }

  lemma AddMiss(p: Params, s: State, t: Tid, act: ReadAct)
    requires p.blksz > 0 && EnabledRead(p, s, t, act) && (act.ReadLaunch? || act.ReadSyncAdd? || act.ReadFindAhead?)
    requires MissOk(p, s.file.seg, s.thr[t])
    ensures MissOk(p, s.file.seg, EffectRead(p, s, t, act).thr[t])
  {
    hide FindTracker, AddTracker, Exists;
  }

  lemma AddLocal(p: Params, s: State, t: Tid, act: ReadAct)
    requires p.blksz > 0 && EnabledRead(p, s, t, act) && (act.ReadLaunch? || act.ReadSyncAdd? || act.ReadFindAhead?)
    requires LocalOk(p, s.thr[t])
    ensures LocalOk(p, EffectRead(p, s, t, act).thr[t])
  {
    hide FindTracker, AddTracker, LocalOk;
    Moved(p, s.thr[t], EffectRead(p, s, t, act).thr[t].pc);
  }

  /** A tracker added by the step is for a block that is unmarked and untracked, and the thread holds
      both `w_lock` and `dl_lock`. */
  ghost predicate AddsRightly(p: Params, s: State, s': State, t: Tid)
    requires p.blksz > 0
  {
    forall a :: a in s'.mem.tb.list && a !in s.mem.tb.list ==>
      && s.lk.w == Some(t) && s.lk.dl == Some(t)
      && !Exists(s.file.seg, At(s'.mem.tb, a).blk) && !Tracked(s.mem.tb, At(s'.mem.tb, a).blk)
  }

  lemma AddIsRight(p: Params, s: State, s': State, t: Tid, a: Aid, b: nat)
    requires p.blksz > 0 && s'.mem.tb == AddTracker(s.mem.tb, a, b) && s.lk.w == Some(t) && s.lk.dl == Some(t)
    requires !Exists(s.file.seg, b) && !Tracked(s.mem.tb, b)
    ensures AddsRightly(p, s, s', t)
  {
  }

  lemma NoAddIsRight(p: Params, s: State, s': State, t: Tid)
    requires p.blksz > 0 && forall a :: a in s'.mem.tb.list ==> a in s.mem.tb.list
    ensures AddsRightly(p, s, s', t)
  {
  }

  /** The new owner has found its block missing, and still holds both locks. */
  lemma AdderKnows(p: Params, s: State, t: Tid, act: ReadAct)
    requires p.blksz > 0 && EnabledRead(p, s, t, act) && Facts(s, t)
    requires act.ReadLaunch? || act.ReadSyncAdd? || act.ReadFindAhead?
    requires MissOk(p, s.file.seg, s.thr[t])
    ensures var o := Own(p, EffectRead(p, s, t, act).thr[t]);
            o.Some? ==> !Exists(s.file.seg, o.value) && s.lk.w == Some(t) && s.lk.dl == Some(t)
  {
    hide FindTracker, AddTracker;
  }

  lemma KeepAdd(p: Params, s: State, t: Tid, act: ReadAct, seg0: seq<bool>)
    requires p.blksz > 0 && Core(p, s, seg0) && EnabledRead(p, s, t, act)
    requires act.ReadLaunch? || act.ReadSyncAdd? || act.ReadFindAhead?
    ensures Core(p, EffectRead(p, s, t, act), seg0) && AddsRightly(p, s, EffectRead(p, s, t, act), t)
  {
    hide Core, MemInv, LocalOk, MissOk, LocalDelta, SharedDelta, EffectRead, AddsRightly, Facts;
    Open(p, s, t, seg0);
    if act.ReadLaunch? {
      RegisterDelta(p, s, t, act);
      LaunchShape(p, s, t, act);
    } else if act.ReadSyncAdd? {
      SyncAddDelta(p, s, t, act);
      SyncAddShape(p, s, t, act);
    } else {
      FindAheadDelta(p, s, t, act);
      AddAheadShape(p, s, t, act);
    }
    AddMiss(p, s, t, act);
    AddLocal(p, s, t, act);
    AdderKnows(p, s, t, act);
    var s' := EffectRead(p, s, t, act);
    if Own(p, s'.thr[t]).Some? {
      FoundIs(s.mem.tb, Own(p, s'.thr[t]).value);
      AddIsRight(p, s, s', t, act.a, Own(p, s'.thr[t]).value);
      assert act.a !in s.mem.tb.heap;
      AddMem(p, s, s', t, act.a, Own(p, s'.thr[t]).value);
    } else {
      NoAddIsRight(p, s, s', t);
      NoMemChange(p, s, s', t);
    }
    Settle(p, s, s', t, seg0);
  }

  /** The thread's own tracker leaves the list, its waiters are woken, and it owns nothing any more. */
  ghost predicate Removes(p: Params, s: State, s': State, t: Tid)
    requires p.blksz > 0
  {
    && ThreadStep(s, s', t) && s'.file == s.file && MissOk(p, s.file.seg, s'.thr[t])
    && var l, l' := s.thr[t], s'.thr[t]; var b := Cur(p, l);
    && s'.mem == s.mem.(tb := RemoveTracker(s.mem.tb, b))
    && (FindTracker(s.mem.tb, b).Some? ==> WaitersOn(s.thr, FindTracker(s.mem.tb, b).value) <= s'.sig)
    && WaitOn(l).None? && WaitOn(l').None? && !HasTs(l) && !HasTs(l')
    && Own(p, l) == Some(b) && Own(p, l').None?
  }

  lemma RemovesKeeps(p: Params, s: State, s': State, t: Tid, seg0: seq<bool>)
    requires p.blksz > 0 && Core(p, s, seg0) && LocalDelta(s, s', t) && SharedDelta(p, s, s', t) && Removes(p, s, s', t)
    requires LocalOk(p, s'.thr[t])
    ensures Core(p, s', seg0)
  {
    hide Core, MemInv, LocalOk, MissOk, LocalDelta, SharedDelta, FindTracker, RemoveTracker, WaitersOn, Own, HasTs, Cur;
    Open(p, s, t, seg0);
    RemoveMem(p, s, s', t, Cur(p, s.thr[t]));
    Settle(p, s, s', t, seg0);
  }

  lemma UntrackRemoves(p: Params, s: State, t: Tid, act: ReadAct)
    requires p.blksz > 0 && EnabledRead(p, s, t, act) && act.ReadUntrack?
    ensures Removes(p, s, EffectRead(p, s, t, act), t)
  {
    hide FindTracker, RemoveTracker, WaitersOn, Exists;
  }

  lemma UntrackLocal(p: Params, s: State, t: Tid, act: ReadAct)
    requires p.blksz > 0 && EnabledRead(p, s, t, act) && act.ReadUntrack? && LocalOk(p, s.thr[t])
    ensures LocalOk(p, EffectRead(p, s, t, act).thr[t])
  {
    hide LocalOk, FindTracker, RemoveTracker, WaitersOn;
    Moved(p, s.thr[t], EffectRead(p, s, t, act).thr[t].pc);
  }

  lemma KeepUntrack(p: Params, s: State, t: Tid, act: ReadAct, seg0: seq<bool>)
    requires p.blksz > 0 && Core(p, s, seg0) && EnabledRead(p, s, t, act) && act.ReadUntrack?
    ensures Core(p, EffectRead(p, s, t, act), seg0)
  {
    hide Core, MemInv, LocalOk, LocalDelta, SharedDelta, MissOk, EffectRead, Removes;
    Open(p, s, t, seg0);
    UntrackDelta(p, s, t, act);
    UntrackRemoves(p, s, t, act);
    UntrackLocal(p, s, t, act);
    RemovesKeeps(p, s, EffectRead(p, s, t, act), t, seg0);
  }

  // ----- storing a block -----

  /** Once the closer has every slot, and after it is done, no reader or background thread is left. */
  lemma Quiescent(p: Params, s: State)
    requires p.blksz > 0 && CommonInv(p, s)
    requires s.life.gone || (s.lk.cf.Some? && s.lk.cf.value in s.thr && Taken(p, s.thr[s.lk.cf.value]) == p.workers)
    ensures forall t :: t in s.thr && Active(s.thr[t]) ==> s.thr[t].role.Closer?
  {
    hide LocksW, LocksDl, NetOk, WaiterCount, CloserWakeUp;
    if !s.life.gone {
      assert |SlotHolders(s.thr)| == 0;
      assert |s.life.handles| == 0;
      forall t | t in s.thr && Active(s.thr[t])
        ensures s.thr[t].role.Closer?
      {
        assert t !in SlotHolders(s.thr);
      }
    }
  }

  /** While anybody is active outside closing, nothing has been saved yet. */
  lemma NotSavedYet(p: Params, s: State, t: Tid)
    requires p.blksz > 0 && CommonInv(p, s) && t in s.thr && Active(s.thr[t]) && !s.thr[t].role.Closer?
    ensures s.file.saved.None? && !s.file.segFreed && !s.life.gone && !s.life.shutting
  {
    hide LocksW, LocksDl, NetOk, WaiterCount, CloserWakeUp, SlotCount, Handles;
    if s.file.saved.Some? || s.file.segFreed || s.life.gone || s.life.shutting {
      Quiescent(p, s);
    }
  }

  lemma WrittenBytes(disk: seq<byte>, off: nat, bytes: seq<byte>)
    requires off + |bytes| <= |disk|
    ensures |WriteBytes(disk, off, bytes)| == |disk|
    ensures forall i: nat :: i < |disk| ==>
              WriteBytes(disk, off, bytes)[i] == if off <= i < off + |bytes| then bytes[i - off] else disk[i]
  {
  }

  /** Writing remote bytes of a block, all or part of them, keeps the data file in step with the bitmap. */
  lemma StoreCoherent(p: Params, f: File, b: nat, data: seq<byte>, io: int)
    requires p.blksz > 0 && Coherent(p, f.seg, f.disk) && Lo(p, b) < |p.remote|
    requires |data| == Size(p, b) > 0 && data == p.remote[Lo(p, b)..Lo(p, b) + Size(p, b)]
    ensures var f' := StoreBlock(p, f, b, data, io); Coherent(p, f'.seg, f'.disk)
  {
    hide Lo, BlockOf, WriteBytes;
    var f' := StoreBlock(p, f, b, data, io);
    if io >= 0 {
      var k := Min(io, |data|);
      WrittenBytes(f.disk, Lo(p, b), data[..k]);
      forall i: nat | i < |p.remote| && Exists(f'.seg, BlockOf(p, i))
        ensures f'.disk[i] == p.remote[i]
      {
        if BlockOf(p, i) == b {
          BlockBounds(p, i);
        } else if Lo(p, b) <= i < Lo(p, b) + p.blksz {
          BlockUnique(p, b, i);
        }
      }
    }
  }

  lemma StoreLog(p: Params, f: File, b: nat, data: seq<byte>, io: int, seg0: seq<bool>)
    requires LogOk(f, seg0) && !Exists(f.seg, b)
    ensures LogOk(StoreBlock(p, f, b, data, io), seg0)
  {
    hide WriteData;
  }

  /** Everybody else's conclusions survive: the block belongs to the thread that stores it, and nobody
      else holds `w_lock`. */
  /** Marking block `b` leaves the conclusions of a thread true that neither owns `b` nor holds `w_lock`. */
  lemma MarkMisses(p: Params, seg: seq<bool>, seg': seq<bool>, l: Local, b: nat)
    requires p.blksz > 0 && MissOk(p, seg, l) && !HoldsW(l) && Own(p, l) != Some(b) && (seg' == seg || seg' == Mark(seg, b))
    ensures MissOk(p, seg', l)
  {
    hide Own, Cur;
  }

  lemma StoreMisses(p: Params, s: State, t: Tid, l: Local, b: nat, data: seq<byte>, io: int)
    requires p.blksz > 0 && Misses(p, s.file.seg, s.thr) && Owners(p, s) && LocksW(s) && s.lk.w.None?
    requires t in s.thr && Own(p, s.thr[t]) == Some(b) && (l.pc.Untrack? || l.pc.BgUntrack?)
    ensures Misses(p, StoreBlock(p, s.file, b, data, io).seg, s.thr[t := l])
  {
    hide WriteData, Tracked, Owned, MissOk, Own, HoldsW, Mark;
    var seg' := StoreBlock(p, s.file, b, data, io).seg;
    forall u | u in s.thr && u != t
      ensures MissOk(p, seg', s.thr[u])
    {
      MarkMisses(p, s.file.seg, seg', s.thr[u], b);
    }
    StoredMiss(p, seg', l);
  }

  lemma StoredMiss(p: Params, seg: seq<bool>, l: Local)
    requires p.blksz > 0 && (l.pc.Untrack? || l.pc.BgUntrack?)
    ensures MissOk(p, seg, l)
  {
  }

  /** The thread stores the block it owns, with all or part of the bytes, and has its tracker still to remove. */
  ghost predicate Stores(p: Params, s: State, s': State, t: Tid, b: nat, data: seq<byte>, io: int)
    requires p.blksz > 0
  {
    && LocalDelta(s, s', t) && SharedDelta(p, s, s', t) && ThreadStep(s, s', t) && s.lk.w.None?
    && LocalOk(p, s'.thr[t]) && (s'.thr[t].pc.Untrack? || s'.thr[t].pc.BgUntrack?)
    && s'.mem == s.mem && SameWork(p, s.thr[t], s'.thr[t]) && WaitOn(s'.thr[t]).None?
    && Own(p, s.thr[t]) == Some(b) == Own(p, s'.thr[t]) && BeforeStore(s.thr[t]) && Active(s.thr[t])
    && |data| == Size(p, b) > 0 && Lo(p, b) < |p.remote| && data == p.remote[Lo(p, b)..Lo(p, b) + Size(p, b)]
    && s'.file == StoreBlock(p, s.file, b, data, io)
  }

  /** The common part of storing a block, by a reader or in the background. */
  lemma StoreKeeps(p: Params, s: State, s': State, t: Tid, b: nat, data: seq<byte>, io: int, seg0: seq<bool>)
    requires p.blksz > 0 && Core(p, s, seg0) && Stores(p, s, s', t, b, data, io)
    ensures Core(p, s', seg0)
  {
    hide CommonInv, Locals, MemInv, Coherent, LogOk, Misses, LocalOk, LocalDelta, SharedDelta, SameWork, StoreBlock, Own, TsOk;
    Open(p, s, t, seg0);
    SettleShared(p, s, s', t, seg0);
    NoMemChange(p, s, s', t);
    StoreCoherent(p, s.file, b, data, io);
    StoreLog(p, s.file, b, data, io, seg0);
    StoreFacts(p, s, t, seg0);
    StoreMisses(p, s, t, s'.thr[t], b, data, io);
    assert s'.file.saved.None? by {
      StoreSaved(p, s.file, b, data, io);
    }
  }

  lemma StoreSaved(p: Params, f: File, b: nat, data: seq<byte>, io: int)
    ensures StoreBlock(p, f, b, data, io).saved == f.saved && StoreBlock(p, f, b, data, io).segFreed == f.segFreed
  {
  }

  lemma StoreFacts(p: Params, s: State, t: Tid, seg0: seq<bool>)
    requires p.blksz > 0 && Core(p, s, seg0) && t in s.thr && Active(s.thr[t]) && !s.thr[t].role.Closer?
    ensures Owners(p, s) && LocksW(s) && s.file.saved.None?
  {
    hide Owners, LocksW, LocksCf, LocksDl, NetOk, WaiterCount, SlotCount, CloserWakeUp;
    hide Handles, Phases, FileInv, Ledger, ListOk, WakeUps, Transfers, Locals;
    NotSavedYet(p, s, t);
  }

  lemma StoreShape(p: Params, s: State, t: Tid, act: ReadAct)
    requires p.blksz > 0 && EnabledRead(p, s, t, act) && act.ReadStore?
    ensures var s' := EffectRead(p, s, t, act);
            && ThreadStep(s, s', t) && s'.mem == s.mem && SameWork(p, s.thr[t], s'.thr[t]) && WaitOn(s'.thr[t]).None?
            && Own(p, s.thr[t]) == Some(Cur(p, s.thr[t])) == Own(p, s'.thr[t])
            && BeforeStore(s.thr[t]) && !BeforeStore(s'.thr[t]) && Active(s.thr[t]) && s'.thr[t].pc.Untrack?
            && MissOk(p, s.file.seg, s'.thr[t])
            && s'.thr[t] == AfterStore(p, s.thr[t])
            && s'.file == (if Usable(p, s.thr[t]) then StoreBlock(p, s.file, Cur(p, s.thr[t]), s.thr[t].pc.data, act.io) else s.file)
  {
    hide StoreBlock, Usable;
  }

  /** What a thread about to store holds: the whole block, or the news that there is none. */
  lemma Downloaded(p: Params, l: Local)
    requires p.blksz > 0 && LocalOk(p, l) && l.pc.Store? && !l.role.Closer?
    ensures l.pc.recv >= 0 ==>
              var b := Cur(p, l);
              |l.pc.data| == Size(p, b) > 0 && Lo(p, b) < |p.remote| && l.pc.data == p.remote[Lo(p, b)..Lo(p, b) + Size(p, b)]
  {
  }

  lemma KeepStore(p: Params, s: State, t: Tid, act: ReadAct, seg0: seq<bool>)
    requires p.blksz > 0 && Core(p, s, seg0) && EnabledRead(p, s, t, act) && act.ReadStore?
    ensures Core(p, EffectRead(p, s, t, act), seg0)
  {
    hide Core, MemInv, LocalOk, MissOk, LocalDelta, SharedDelta, StoreBlock, DoStore, AfterStore, SameWork;
    Open(p, s, t, seg0);
    StoreDelta(p, s, t, act);
    StoreShape(p, s, t, act);
    FromDownload(p, s.thr[t]);
    Downloaded(p, s.thr[t]);
    var s' := EffectRead(p, s, t, act);
    if Usable(p, s.thr[t]) {
      StoreKeeps(p, s, s', t, Cur(p, s.thr[t]), s.thr[t].pc.data, act.io, seg0);
    } else {
      NoMemChange(p, s, s', t);
      Settle(p, s, s', t, seg0);
    }
  }

  // ----- downloads -----

  lemma BgStoreShape(p: Params, s: State, t: Tid, act: DownAct)
    requires p.blksz > 0 && EnabledDown(s, t, act) && act.DownStore? && LocalOk(p, s.thr[t])
    ensures var s' := EffectDown(p, s, t, act);
            && ThreadStep(s, s', t) && s'.mem == s.mem && SameWork(p, s.thr[t], s'.thr[t]) && WaitOn(s'.thr[t]).None?
            && Own(p, s.thr[t]) == Some(Cur(p, s.thr[t])) == Own(p, s'.thr[t])
            && BeforeStore(s.thr[t]) && Active(s.thr[t]) && s'.thr[t].pc.BgUntrack? && LocalOk(p, s'.thr[t])
            && s.thr[t].pc.recv >= 0
            && s'.file == (if Storable(p, Cur(p, s.thr[t]), |s.thr[t].pc.data|)
                           then StoreBlock(p, s.file, Cur(p, s.thr[t]), s.thr[t].pc.data, act.io) else s.file)
  {
    hide StoreBlock, Storable;
  }

  lemma KeepBgStore(p: Params, s: State, t: Tid, act: DownAct, seg0: seq<bool>)
    requires p.blksz > 0 && Core(p, s, seg0) && EnabledDown(s, t, act) && act.DownStore?
    ensures Core(p, EffectDown(p, s, t, act), seg0)
  {
    hide Core, MemInv, LocalOk, MissOk, LocalDelta, SharedDelta, StoreBlock, DoBgStore, SameWork;
    Open(p, s, t, seg0);
    BgStoreDelta(p, s, t, act);
    BgStoreShape(p, s, t, act);
    Downloaded(p, s.thr[t]);
    WholeBlockIsStored(p, Cur(p, s.thr[t]));
    StoreKeeps(p, s, EffectDown(p, s, t, act), t, Cur(p, s.thr[t]), s.thr[t].pc.data, act.io, seg0);
  }

  lemma DownStays(p: Params, s: State, t: Tid, act: DownAct)
    requires p.blksz > 0 && EnabledDown(s, t, act) && (act.DownAddHandle? || act.DownLeave? || act.DownPost?)
    ensures StaysPut(p, s, EffectDown(p, s, t, act), t)
  {
  }

  lemma DownMiss(p: Params, s: State, t: Tid, act: DownAct)
    requires p.blksz > 0 && EnabledDown(s, t, act) && (act.DownAddHandle? || act.DownLeave? || act.DownPost?)
    requires MissOk(p, s.file.seg, s.thr[t]) && LocalOk(p, s.thr[t])
    ensures var l' := EffectDown(p, s, t, act).thr[t]; MissOk(p, s.file.seg, l') && LocalOk(p, l')
  {
    hide Exists;
  }

  lemma KeepDownMove(p: Params, s: State, t: Tid, act: DownAct, seg0: seq<bool>)
    requires p.blksz > 0 && Core(p, s, seg0) && EnabledDown(s, t, act)
    requires act.DownAddHandle? || act.DownLeave? || act.DownPost?
    ensures Core(p, EffectDown(p, s, t, act), seg0)
  {
    hide Core, MemInv, LocalOk, MissOk, LocalDelta, SharedDelta, StaysPut, EffectDown;
    Open(p, s, t, seg0);
    if act.DownPost? {
      BgStoreDelta(p, s, t, act);
    } else {
      TransferDelta(p, s, t, act);
    }
    DownStays(p, s, t, act);
    DownMiss(p, s, t, act);
    StayKeeps(p, s, EffectDown(p, s, t, act), t, seg0);
  }

  lemma BgUntrackRemoves(p: Params, s: State, t: Tid, act: DownAct)
    requires p.blksz > 0 && EnabledDown(s, t, act) && act.DownUntrack? && LocalOk(p, s.thr[t])
    ensures Removes(p, s, EffectDown(p, s, t, act), t) && LocalOk(p, EffectDown(p, s, t, act).thr[t])
  {
    hide FindTracker, RemoveTracker, WaitersOn, Exists;
  }

  lemma KeepBgUntrack(p: Params, s: State, t: Tid, act: DownAct, seg0: seq<bool>)
    requires p.blksz > 0 && Core(p, s, seg0) && EnabledDown(s, t, act) && act.DownUntrack?
    ensures Core(p, EffectDown(p, s, t, act), seg0)
  {
    hide Core, MemInv, LocalOk, LocalDelta, SharedDelta, MissOk, EffectDown, Removes;
    Open(p, s, t, seg0);
    BgUntrackDelta(p, s, t, act);
    BgUntrackRemoves(p, s, t, act);
    RemovesKeeps(p, s, EffectDown(p, s, t, act), t, seg0);
  }

  /** A thread about to attach finds its own tracker. */
  lemma OwnTracker(p: Params, s: State, t: Tid)
    requires p.blksz > 0 && MemInv(p, s) && t in s.thr && Own(p, s.thr[t]).Some?
    ensures var f := FindTracker(s.mem.tb, Own(p, s.thr[t]).value);
            f.Some? && f.value in s.mem.tb.heap && f.value in s.mem.tb.list && s.mem.tb.heap[f.value].blk == Own(p, s.thr[t]).value
  {
    hide Transfers, ListOk, Ledger, WakeUps;
    FoundIs(s.mem.tb, Own(p, s.thr[t]).value);
  }

  /** The transfer and the listed tracker of the thread's own block point at each other, the transfer holds a
      reference, and the tracker's waiters are woken. */
  ghost predicate AttachesOwn(p: Params, s: State, s': State, t: Tid)
    requires p.blksz > 0 && t in s.thr
  {
    && t in s'.mem.ts && s'.mem.ts[t].ad.Some?
    && var a := s'.mem.ts[t].ad.value;
       && a in s'.mem.tb.list && At(s'.mem.tb, a).blk == Cur(p, s.thr[t]) && At(s'.mem.tb, a).ts == Some(t)
       && At(s'.mem.tb, a).refs == At(s.mem.tb, a).refs + 1 && WaitersOn(s.thr, a) <= s'.sig
  }

  lemma AttachShape(p: Params, s: State, t: Tid, act: DownAct)
    requires p.blksz > 0 && EnabledDown(s, t, act) && act.DownAttach? && FindTracker(s.mem.tb, Cur(p, s.thr[t])).Some?
    requires MissOk(p, s.file.seg, s.thr[t]) && LocalOk(p, s.thr[t])
    ensures var s' := EffectDown(p, s, t, act); var a := FindTracker(s.mem.tb, Cur(p, s.thr[t])).value;
            && ThreadStep(s, s', t) && s'.file == s.file && MissOk(p, s.file.seg, s'.thr[t]) && LocalOk(p, s'.thr[t])
            && s'.mem == Mem(AttachTs(s.mem.tb, a, t), s.mem.ts[t := Ts([], true, Some(a), Ok)]) && WaitersOn(s.thr, a) <= s'.sig
            && s'.thr[t] == s.thr[t].(pc := AddHandle) && s.thr[t].pc.Attach? && !s.thr[t].role.Closer?
  {
    hide FindTracker, WaitersOn, Exists, AttachTs;
  }

  lemma KeepAttach(p: Params, s: State, t: Tid, act: DownAct, seg0: seq<bool>)
    requires p.blksz > 0 && Core(p, s, seg0) && EnabledDown(s, t, act) && act.DownAttach?
    ensures Core(p, EffectDown(p, s, t, act), seg0) && AttachesOwn(p, s, EffectDown(p, s, t, act), t)
  {
    hide Core, MemInv, LocalOk, MissOk, LocalDelta, SharedDelta, FindTracker, WaitersOn, EffectDown;
    Open(p, s, t, seg0);
    AttachDelta(p, s, t, act);
    OwnTracker(p, s, t);
    NoTs(p, s, t);
    var s' := EffectDown(p, s, t, act);
    AttachShape(p, s, t, act);
    PositiveSize(p, s.thr[t]);
    AttachMem(p, s, s', t, FindTracker(s.mem.tb, Cur(p, s.thr[t])).value, s'.mem.ts[t]);
    FeedingOthers(p, s, t, seg0);
    Settle(p, s, s', t, seg0);
  }

  lemma NoTs(p: Params, s: State, t: Tid)
    requires p.blksz > 0 && MemInv(p, s) && t in s.thr
    ensures t in s.mem.ts <==> HasTs(s.thr[t])
    ensures t in s.mem.ts ==> TsOk(p, s.thr[t], s.mem.ts[t]) && s.mem.ts[t].ad.Some?
  {
    hide TsOk, ListOk, WakeUps, Owners, Refs, PointersOk, WaitsOk;
  }

  lemma PositiveSize(p: Params, l: Local)
    requires p.blksz > 0 && LocalOk(p, l) && !l.role.Closer? && Active(l)
    ensures Size(p, Cur(p, l)) > 0 && Lo(p, Cur(p, l)) < |p.remote|
  {
    if l.role.Reader? {
      PieceInBlock(p, l);
    }
  }

  /** The callback in progress, if any, feeds a thread that is in its transfer loop. */
  lemma FeedingOthers(p: Params, s: State, t: Tid, seg0: seq<bool>)
    requires p.blksz > 0 && Core(p, s, seg0) && t in s.thr && !s.thr[t].pc.Transfer?
    ensures s.lk.x.XCallback? ==> s.lk.x.to != t
  {
    hide LocksW, LocksCf, LocksDl, WaiterCount, SlotCount, CloserWakeUp, Handles, Phases, FileInv, MemInv, Locals;
  }

  lemma DetachLocal(p: Params, l: Local, u: Ts)
    requires p.blksz > 0 && LocalOk(p, l) && l.pc.Detach? && !l.role.Closer? && TsOk(p, l, u)
    ensures LocalOk(p, l.(pc := AfterTransfer(p, l, u)))
    ensures var l' := l.(pc := AfterTransfer(p, l, u));
            && Own(p, l') == Own(p, l) && WaitOn(l').None? && !HasTs(l') && !SawMissing(l') && !l'.pc.FindAhead?
  {
    PositiveSize(p, l);
  }

  /** The thread's transfer structure is gone, and no listed tracker points at it. */
  ghost predicate Forgotten(s: State, t: Tid) {
    t !in s.mem.ts && forall a :: a in s.mem.tb.list ==> At(s.mem.tb, a).ts != Some(t)
  }

  lemma NobodyPoints(p: Params, s: State, t: Tid)
    requires p.blksz > 0 && MemInv(p, s) && t !in s.mem.ts
    ensures Forgotten(s, t)
  {
    hide Transfers, ListOk, Owners, WakeUps, Refs, WaitsOk, AttachesOk;
  }

  lemma KeepDetach(p: Params, s: State, t: Tid, act: DownAct, seg0: seq<bool>)
    requires p.blksz > 0 && Core(p, s, seg0) && EnabledDown(s, t, act) && act.DownDetach?
    ensures Core(p, EffectDown(p, s, t, act), seg0) && Forgotten(EffectDown(p, s, t, act), t)
  {
    hide Core, MemInv, LocalOk, LocalDelta, SharedDelta, DetachTs, AfterTransfer, TsOk, Forgotten;
    Open(p, s, t, seg0);
    DetachDelta(p, s, t, act);
    NoTs(p, s, t);
    var s' := EffectDown(p, s, t, act);
    DetachLocal(p, s.thr[t], s.mem.ts[t]);
    DetachMem(p, s, s', t, Cur(p, s.thr[t]), s.mem.ts[t].ad.value);
    NobodyPoints(p, s', t);
    FeedingOthers(p, s, t, seg0);
    Settle(p, s, s', t, seg0);
  }
}
