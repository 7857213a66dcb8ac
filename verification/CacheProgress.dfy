/** No reachable state is stuck: while a reader, a background thread or a closer is unfinished, some
    thread or the network can take a step. */
module CacheProgress {
  import opened Prelude
  import opened Blocks
  import opened CacheState
  import opened CacheInv
  import opened CacheSteps
  import opened CacheKeep
  import opened CacheClose

  /** Some step other than a new FUSE call or a spurious wake-up is enabled. */
  ghost predicate CanStep(p: Params, s: State)
    requires p.blksz > 0
  {
    exists t: Tid, act: Act :: Enabled(p, s, t, act) && !act.Env?
  }

  /** This thread itself can take such a step. */
  ghost predicate CanGoOn(p: Params, s: State, t: Tid)
    requires p.blksz > 0
  {
    exists act: Act :: Enabled(p, s, t, act) && !act.Env?
  }

  lemma Shows(p: Params, s: State, t: Tid, act: Act)
    requires p.blksz > 0 && Enabled(p, s, t, act) && !act.Env?
    ensures CanStep(p, s) && CanGoOn(p, s, t)
  {
  }

  lemma ItCan(p: Params, s: State, t: Tid)
    requires p.blksz > 0 && CanGoOn(p, s, t)
    ensures CanStep(p, s)
  {
  }

  /** Which program counters each role can have. */
  lemma RolePc(p: Params, l: Local)
    requires p.blksz > 0 && LocalOk(p, l)
    ensures l.role.Reader? ==> ReaderPc(l.pc)
    ensures l.role.Bg? ==> BgPc(l.pc)
    ensures l.role.Closer? ==> CloserPcOk(p, l.pc)
  {
  }

  /** The thread holding `dl_lock` for its own section can run the section. */
  lemma DlHolderSteps(p: Params, s: State, t: Tid)
    requires p.blksz > 0 && HoldsDl(s, t) && t in s.thr && PcWantsDl(s.thr[t]) && LocalOk(p, s.thr[t])
    ensures CanGoOn(p, s, t)
  {
    hide CanStep, CanGoOn, LocalOk;
    RolePc(p, s.thr[t]);
    var a := Fresh(s.mem.tb.heap.Keys);
    match s.thr[t].pc
    case Find => Shows(p, s, t, Read(ReadFind));
    case Launch => Shows(p, s, t, Read(ReadLaunch(a)));
    case Register(_) => Shows(p, s, t, Read(ReadRegister));
    case Asleep(_) => Shows(p, s, t, Read(ReadWake));
    case SyncAdd => Shows(p, s, t, Read(ReadSyncAdd(a)));
    case Attach => Shows(p, s, t, Down(DownAttach));
    case Detach => Shows(p, s, t, Down(DownDetach));
    case Untrack => Shows(p, s, t, Read(ReadUntrack));
    case FindAhead(_) => Shows(p, s, t, Read(ReadFindAhead(a)));
    case BgUntrack => Shows(p, s, t, Down(DownUntrack));
    case CloseList => Shows(p, s, t, Close(ShutDown));
    case CloseWait => Shows(p, s, t, Close(CloserWake));
  }

  /** The reader is between sections that need `dl_lock`, at a step that needs no lock or only `w_lock`. */
  lemma ReaderRuns(p: Params, s: State, t: Tid)
    requires p.blksz > 0 && IsReader(s, t) && !PcWantsDl(s.thr[t]) && Active(s.thr[t]) && ReaderPc(s.thr[t].pc)
    requires !InDownload(s.thr[t].pc) && (s.lk.w.None? || HoldsW(s.thr[t]))
    ensures CanGoOn(p, s, t)
  {
    hide CanStep, CanGoOn;
    var bg := Fresh(s.thr.Keys);
    match s.thr[t].pc
    case Check => Shows(p, s, t, Read(ReadCheck(0)));
    case TrySlot => Shows(p, s, t, Read(ReadTrySlot));
    case BackOff | BackOffAhead => Shows(p, s, t, Read(ReadBackOff));
    case Spawn(_) => Shows(p, s, t, Read(ReadSpawn(bg)));
    case Recheck => Shows(p, s, t, Read(ReadRecheck(0)));
    case Peek => Shows(p, s, t, Read(ReadPeek));
    case TryAhead => Shows(p, s, t, Read(ReadTryAhead));
    case LockAhead => Shows(p, s, t, Read(ReadLockAhead));
    case EndPiece => Shows(p, s, t, Read(ReadEndPiece));
  }

  lemma DownloadRuns(p: Params, s: State, t: Tid)
    requires p.blksz > 0 && s.lk.w.None? && s.lk.x.XFree? && t in s.thr && !s.thr[t].role.Closer?
    requires s.thr[t].pc.AddHandle? || s.thr[t].pc.Transfer? || s.thr[t].pc.Store? || (s.thr[t].pc.BgPost? && s.thr[t].role.Bg?)
    requires HasTs(s.thr[t]) ==> t in s.mem.ts
    ensures CanGoOn(p, s, t)
  {
    hide CanStep, CanGoOn;
    match s.thr[t].pc
    case AddHandle => Shows(p, s, t, Down(DownAddHandle));
    case Transfer => Shows(p, s, t, if s.mem.ts[t].on then Net(NetLock) else Down(DownLeave));
    case Store(_, _) => Shows(p, s, t, if s.thr[t].role.Reader? then Read(ReadStore(0)) else Down(DownStore(0)));
    case BgPost => Shows(p, s, t, Down(DownPost));
  }

  /** The thread holding `w_lock` needs only `dl_lock`, or nothing. */
  lemma WHolderSteps(p: Params, s: State, t: Tid)
    requires p.blksz > 0 && s.lk.dl.None? && t in s.thr && HoldsW(s.thr[t])
    ensures CanGoOn(p, s, t)
  {
    hide CanStep, CanGoOn;
    if PcWantsDl(s.thr[t]) {
      Shows(p, s, t, LockDl);
    } else {
      ReaderRuns(p, s, t);
    }
  }

  /** With all locks free, every running reader or background thread that is not asleep can go on. */
  lemma Runs(p: Params, s: State, t: Tid)
    requires p.blksz > 0 && s.lk.dl.None? && s.lk.w.None? && s.lk.x.XFree?
    requires t in s.thr && !s.thr[t].role.Closer? && Active(s.thr[t]) && !Sleeps(s.thr[t]) && LocalOk(p, s.thr[t])
    requires HasTs(s.thr[t]) ==> t in s.mem.ts
    ensures CanGoOn(p, s, t)
  {
    hide CanStep, CanGoOn, LocalOk;
    RolePc(p, s.thr[t]);
    if PcWantsDl(s.thr[t]) {
      Shows(p, s, t, LockDl);
    } else if InDownload(s.thr[t].pc) || s.thr[t].pc.BgPost? {
      DownloadRuns(p, s, t);
    } else {
      ReaderRuns(p, s, t);
    }
  }

  /** A sleeper that has not been woken waits for a block whose tracker a thread still owns. */
  lemma SleeperHasOwner(p: Params, s: State, t: Tid) returns (u: Tid)
    requires p.blksz > 0 && MemInv(p, s) && t in s.thr && WaitOn(s.thr[t]).Some? && t !in s.sig
    ensures u in s.thr && u != t && Own(p, s.thr[u]) == Some(Cur(p, s.thr[t]))
  {
    hide Transfers, Refs, TsOk, Served, Cur;
    var a := WaitOn(s.thr[t]).value;
    assert a in s.mem.tb.list && a in s.mem.tb.heap && s.mem.tb.heap[a].blk == Cur(p, s.thr[t]);
    assert Owned(p, s, s.mem.tb.heap[a].blk);
    u :| u in s.thr && Own(p, s.thr[u]) == Some(s.mem.tb.heap[a].blk);
  }

  /** An owner is not asleep, and neither is the holder of a slot. */
  lemma OwnersRun(p: Params, s: State, t: Tid)
    requires p.blksz > 0 && s.lk.dl.None? && s.lk.w.None? && s.lk.x.XFree? && Locals(p, s) && MemInv(p, s)
    requires t in s.thr && (Own(p, s.thr[t]).Some? || HasSlot(s.thr[t]))
    ensures CanGoOn(p, s, t)
  {
    hide CanStep, CanGoOn, LocalOk, MemInv;
    RolePc(p, s.thr[t]);
    HasItsTs(p, s, t);
    Runs(p, s, t);
  }

  /** With all other locks free the closer that holds `cf_lock` can go on itself, unless it waits for a
      slot; then some thread holds a slot and can go on. */
  lemma CloserRuns(p: Params, s: State, t: Tid, seg0: seq<bool>)
    requires p.blksz > 0 && Core(p, s, seg0) && s.lk.dl.None? && s.lk.w.None? && s.lk.x.XFree?
    requires IsCloser(s, t) && HoldsCf(s.thr[t])
    ensures CanGoOn(p, s, t)
            || (s.thr[t].pc.CloseTake? && s.thr[t].pc.k < p.workers && s.sem == 0
                && exists u :: u in s.thr && HasSlot(s.thr[u]) && CanGoOn(p, s, u))
  {
    hide CanStep, CanGoOn, LocksW, LocksDl, NetOk, WaiterCount, CloserWakeUp, Handles, FileInv, MemInv, Locals;
    assert s.lk.cf == Some(t);
    match s.thr[t].pc
    case CloseTake(k) =>
      if k >= p.workers {
        CloserBound(p, s, t);
        Shows(p, s, t, Close(SaveBitmap));
      } else if s.sem > 0 {
        Shows(p, s, t, Close(TakeSlot));
      } else {
        NotGone(p, s, t);
        var u := SomeHolder(p, s, t);
        OwnersRun(p, s, u);
      }
    case CloseFree => Shows(p, s, t, Close(FreeBitmap));
    case CloseDestroy => Shows(p, s, t, Close(Destroy));
    case CloseList => Shows(p, s, t, LockDl);
    case CloseWait => CloserIsWoken(p, s, t, seg0); Shows(p, s, t, LockDl);
  }

  lemma CloserBound(p: Params, s: State, t: Tid)
    requires p.blksz > 0 && Locals(p, s) && IsCloser(s, t) && s.thr[t].pc.CloseTake?
    ensures s.thr[t].pc.k <= p.workers
  {
    assert LocalOk(p, s.thr[t]);
  }

  lemma NotGone(p: Params, s: State, t: Tid)
    requires Phases(s) && s.lk.cf.Some?
    ensures !s.life.gone
  {
  }

  lemma SomeHolder(p: Params, s: State, t: Tid) returns (u: Tid)
    requires p.blksz > 0 && SlotCount(p, s) && !s.life.gone && s.lk.cf == Some(t) && t in s.thr && Taken(p, s.thr[t]) < p.workers
    requires s.sem == 0
    ensures u in s.thr && HasSlot(s.thr[u])
  {
    assert |SlotHolders(s.thr)| > 0;
    u :| u in SlotHolders(s.thr);
  }

  /** The closer never sleeps unwoken in a live run: it took every slot first. */
  lemma CloserIsWoken(p: Params, s: State, t: Tid, seg0: seq<bool>)
    requires p.blksz > 0 && Core(p, s, seg0) && IsCloser(s, t) && s.thr[t].pc.CloseWait?
    ensures t in s.sig
  {
    hide LocksW, LocksDl, NetOk, WaiterCount, SlotCount, Handles, Phases, FileInv, MemInv, Locals;
    assert s.lk.cf == Some(t);
    Alone(p, s, seg0);
    assert t in ClosersAsleep(s.thr);
  }

  /** Locks are taken in the order transfer_lock, w_lock, dl_lock: who holds dl_lock can go on, who holds
      w_lock or is in the write callback can once dl_lock is free, and who runs the network always can. */
  lemma LocksMove(p: Params, s: State)
    requires p.blksz > 0 && LocksW(s) && LocksDl(s) && NetOk(p, s) && Locals(p, s)
    ensures s.lk.dl.Some? ==> CanGoOn(p, s, s.lk.dl.value)
    ensures s.lk.w.Some? && s.lk.dl.None? ==> CanGoOn(p, s, s.lk.w.value)
    ensures s.lk.x.XCallback? && s.lk.dl.None? ==> CanGoOn(p, s, s.lk.x.t)
    ensures s.lk.x.XHeld? ==> CanGoOn(p, s, s.lk.x.t)
  {
    hide CanStep, CanGoOn, LocalOk;
    if s.lk.x.XHeld? {
      Shows(p, s, s.lk.x.t, Net(NetUnlock));
    }
    if s.lk.dl.Some? {
      var v := s.lk.dl.value;
      if s.lk.x.XCallback? && s.lk.x.t == v {
        Shows(p, s, v, Net(NetDeliver));
      } else {
        DlHolderSteps(p, s, v);
      }
    } else {
      if s.lk.x.XCallback? {
        Shows(p, s, s.lk.x.t, LockDl);
      }
      if s.lk.w.Some? {
        WHolderSteps(p, s, s.lk.w.value);
      }
    }
  }

  lemma FreeLocksMove(p: Params, s: State, t: Tid, seg0: seq<bool>)
    requires p.blksz > 0 && Core(p, s, seg0) && t in s.thr && Active(s.thr[t])
    requires s.lk.dl.None? && s.lk.w.None? && s.lk.x.XFree?
    ensures exists u :: CanGoOn(p, s, u)
  {
    hide CanStep, CanGoOn, LocksW, LocksDl, NetOk, WaiterCount, SlotCount, CloserWakeUp, Handles, FileInv, MemInv, Phases, LocalOk;
    RolePc(p, s.thr[t]);
    if s.thr[t].role.Closer? {
      if HoldsCf(s.thr[t]) {
        CloserRuns(p, s, t, seg0);
      } else if s.lk.cf.None? {
        Shows(p, s, t, Close(LockCf));
      } else {
        CloserRuns(p, s, s.lk.cf.value, seg0);
      }
    } else if !Sleeps(s.thr[t]) {
      HasItsTs(p, s, t);
      Runs(p, s, t);
    } else if t in s.sig {
      Shows(p, s, t, LockDl);
    } else {
      var u := SleeperHasOwner(p, s, t);
      OwnersRun(p, s, u);
    }
  }

  lemma HasItsTs(p: Params, s: State, t: Tid)
    requires p.blksz > 0 && MemInv(p, s) && t in s.thr
    ensures HasTs(s.thr[t]) ==> t in s.mem.ts
  {
    hide TsOk, ListOk, Ledger, Owners, WakeUps;
  }

  /** No stuck state: an unfinished reader, background thread or closer means that some thread can step,
      whatever locks are held and whoever sleeps. */
  lemma NoStuckState(p: Params, s: State, t: Tid, seg0: seq<bool>)
    requires p.blksz > 0 && Inv(p, s, seg0) && t in s.thr && Active(s.thr[t])
    ensures CanStep(p, s)
  {
    hide CanStep, CanGoOn, LocksW, LocksCf, LocksDl, NetOk, WaiterCount, SlotCount, CloserWakeUp, Handles, FileInv, MemInv, Phases, Locals;
    if s.lk.dl.Some? || s.lk.w.Some? || !s.lk.x.XFree? {
      LocksMove(p, s);
      ItCan(p, s, if s.lk.dl.Some? then s.lk.dl.value else if s.lk.w.Some? then s.lk.w.value else s.lk.x.t);
    } else {
      FreeLocksMove(p, s, t, seg0);
      var u :| CanGoOn(p, s, u);
      ItCan(p, s, u);
    }
  }
}
