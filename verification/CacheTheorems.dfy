/** The promises of the segment cache, for every reachable state and every run. */
module CacheTheorems {
  import opened Prelude
  import opened Blocks
  import opened CacheState
  import opened CacheInv
  import opened CacheTable
  import opened CacheSteps
  import opened CacheKeep
  import opened CacheClose
  import opened CacheFaults
  import opened CacheRuns

  // ----- single flight -----

  /** The block the step passes to Data_write. */
  function Writes(p: Params, s: State, step: Step): Option<nat>
    requires p.blksz > 0
  {
    if step.t !in s.thr || !s.thr[step.t].pc.Store? then None
    else if step.act.Read? && step.act.r.ReadStore? && s.thr[step.t].role.Reader? && Usable(p, s.thr[step.t])
      then Some(Cur(p, s.thr[step.t]))
    else if step.act.Down? && step.act.d.DownStore? && Storable(p, Cur(p, s.thr[step.t]), |s.thr[step.t].pc.data|)
      then Some(Cur(p, s.thr[step.t]))
    else None
  }

  lemma ReadFile(p: Params, s: State, t: Tid, act: ReadAct)
    requires p.blksz > 0 && EnabledRead(p, s, t, act)
    ensures var f := EffectRead(p, s, t, act).file; var w := Writes(p, s, Step(t, Read(act)));
            && (w.None? ==> f == s.file)
            && (w.Some? ==> exists io :: f == StoreBlock(p, s.file, w.value, s.thr[t].pc.data, io))
  {
    hide FindTracker, AddTracker, RemoveTracker, StoreBlock, WakeAll, WakeCloser, EarlyCopy, ReadData, HasNext, Usable, AfterStore, AfterPiece;
  }

  lemma DownFile(p: Params, s: State, t: Tid, act: DownAct)
    requires p.blksz > 0 && EnabledDown(s, t, act)
    ensures var f := EffectDown(p, s, t, act).file; var w := Writes(p, s, Step(t, Down(act)));
            && (w.None? ==> f == s.file)
            && (w.Some? ==> exists io :: f == StoreBlock(p, s.file, w.value, s.thr[t].pc.data, io))
  {
    hide FindTracker, AddTracker, RemoveTracker, StoreBlock, WakeAll, WakeCloser, Storable, DetachTs, AttachTs, AfterTransfer;
  }

  /** Bytes outside the block, and marks of other blocks, are untouched. */
  ghost predicate OnlyBlock(p: Params, f: File, f': File, b: nat)
    requires p.blksz > 0
  {
    && |f'.disk| == |f.disk| && |f'.seg| == |f.seg|
    && (forall i: nat :: i < |f.disk| && BlockOf(p, i) != b ==> f'.disk[i] == f.disk[i])
    && (forall c: nat :: c < |f.seg| && c != b ==> f'.seg[c] == f.seg[c])
    && (b < |f.seg| && f.seg[b] ==> f'.seg[b])
  }

  lemma StoreOnlyBlock(p: Params, f: File, b: nat, data: seq<byte>, io: int)
    requires p.blksz > 0 && |data| == Size(p, b) > 0 && |p.remote| <= |f.disk| && Lo(p, b) < |p.remote|
    ensures OnlyBlock(p, f, StoreBlock(p, f, b, data, io), b)
  {
    if io >= 0 {
      var k := Min(io, |data|);
      WrittenBytes(f.disk, Lo(p, b), data[..k]);
      forall i: nat | i < |f.disk| && BlockOf(p, i) != b
        ensures WriteBytes(f.disk, Lo(p, b), data[..k])[i] == f.disk[i]
      {
        if Lo(p, b) <= i < Lo(p, b) + k {
          BlockUnique(p, b, i);
        }
      }
    }
  }

  /** A step writes at most one block of the data file, one that is not marked and that nobody else
      is downloading; it leaves the bytes and the marks of all other blocks alone. */
  lemma WritesUnmarked(p: Params, s: State, step: Step, seg0: seq<bool>)
    requires p.blksz > 0 && Inv(p, s, seg0) && Enabled(p, s, step.t, step.act)
    ensures var f, f' := s.file, Apply(p, s, step.t, step.act).file;
            match Writes(p, s, step)
            case None => f'.seg == f.seg && f'.disk == f.disk
            case Some(b) => !Exists(f.seg, b) && Own(p, s.thr[step.t]) == Some(b) && OnlyBlock(p, f, f', b)
  {
    hide LocksW, LocksCf, LocksDl, NetOk, WaiterCount, SlotCount, CloserWakeUp, Handles, Phases, MemInv, LogOk;
    hide Bad, EffectRead, EffectDown, OnlyBlock, StoreBlock, LocalOk, EnabledRead, EnabledDown;
    var w := Writes(p, s, step);
    if w.Some? {
      assert MissOk(p, s.file.seg, s.thr[step.t]) && LocalOk(p, s.thr[step.t]);
      WriterOwns(p, s, step);
    }
    if step.act.Read? {
      ReadFile(p, s, step.t, step.act.r);
    } else if step.act.Down? {
      DownFile(p, s, step.t, step.act.d);
    }
    if w.Some? {
      var io :| Apply(p, s, step.t, step.act).file == StoreBlock(p, s.file, w.value, s.thr[step.t].pc.data, io);
      StoreOnlyBlock(p, s.file, w.value, s.thr[step.t].pc.data, io);
    }
  }

  lemma WriterOwns(p: Params, s: State, step: Step)
    requires p.blksz > 0 && Enabled(p, s, step.t, step.act) && Writes(p, s, step).Some?
    requires MissOk(p, s.file.seg, s.thr[step.t]) && LocalOk(p, s.thr[step.t])
    ensures var b := Writes(p, s, step).value; var l := s.thr[step.t];
            && !Exists(s.file.seg, b) && Own(p, l) == Some(b)
            && |l.pc.data| == Size(p, b) > 0 && Lo(p, b) < |p.remote|
  {
    Downloaded(p, s.thr[step.t]);
  }

  /** Some step of the run writes block `b`. */
  ghost predicate WrittenIn(p: Params, s: State, run: seq<Step>, b: nat)
    requires p.blksz > 0 && IsRun(p, s, run)
    decreases |run|
  {
    run != [] && (Writes(p, s, run[0]) == Some(b) || WrittenIn(p, Apply(p, s, run[0].t, run[0].act), run[1..], b))
  }

  /** A marked block stays marked and is never written again, so a block is marked at most once. */
  lemma {:induction false} MarkedForGood(p: Params, s: State, run: seq<Step>, b: nat, seg0: seq<bool>)
    requires p.blksz > 0 && Inv(p, s, seg0) && IsRun(p, s, run) && Exists(s.file.seg, b)
    ensures Exists(After(p, s, run).file.seg, b) && !WrittenIn(p, s, run, b)
    decreases |run|
  {
    hide Inv, Apply, Enabled, Writes;
    if run == [] {
    } else {
      StepKeeps(p, s, run[0].t, run[0].act, seg0);
      WritesUnmarked(p, s, run[0], seg0);
      MarkedForGood(p, Apply(p, s, run[0].t, run[0].act), run[1..], b, seg0);
    }
  }

  /** Two threads never download the same block at the same time, and a block has at most one tracker,
      added while the block was unmarked. */
  lemma SingleFlight(p: Params, s: State, t: Tid, u: Tid, seg0: seq<bool>)
    requires p.blksz > 0 && Inv(p, s, seg0) && t in s.thr && u in s.thr
    requires InDownload(s.thr[t].pc) && InDownload(s.thr[u].pc) && !s.thr[t].role.Closer? && !s.thr[u].role.Closer?
    ensures Cur(p, s.thr[t]) == Cur(p, s.thr[u]) ==> t == u
    ensures !Exists(s.file.seg, Cur(p, s.thr[t])) && Tracked(s.mem.tb, Cur(p, s.thr[t]))
  {
    hide CommonInv, Ledger, ListOk, Transfers, WakeUps, LogOk, Coherent, Locals, Tracked;
    assert MissOk(p, s.file.seg, s.thr[t]);
  }

  lemma ReadLists(p: Params, s: State, t: Tid, act: ReadAct)
    requires p.blksz > 0 && EnabledRead(p, s, t, act) && !act.ReadLaunch? && !act.ReadSyncAdd? && !act.ReadFindAhead?
    ensures act.ReadUntrack? || EffectRead(p, s, t, act).mem.tb.list == s.mem.tb.list
    ensures act.ReadUntrack? ==> EffectRead(p, s, t, act).mem.tb == RemoveTracker(s.mem.tb, Cur(p, s.thr[t]))
  {
    hide FindTracker, RemoveTracker, StoreBlock, WakeAll, WakeCloser, EarlyCopy, ReadData, HasNext, Usable, AfterStore, AfterPiece;
  }

  lemma DownLists(p: Params, s: State, t: Tid, act: DownAct)
    requires p.blksz > 0 && EnabledDown(s, t, act)
    ensures act.DownUntrack? || EffectDown(p, s, t, act).mem.tb.list == s.mem.tb.list
    ensures act.DownUntrack? ==> EffectDown(p, s, t, act).mem.tb == RemoveTracker(s.mem.tb, Cur(p, s.thr[t]))
  {
    hide FindTracker, RemoveTracker, StoreBlock, WakeAll, WakeCloser, Storable, AfterTransfer;
  }

  /** Removing the tracker of a block adds nothing to the list. */
  lemma RemoveAddsNothing(p: Params, s: State, b: nat)
    requires p.blksz > 0 && MemInv(p, s)
    ensures forall a :: a in RemoveTracker(s.mem.tb, b).list ==> a in s.mem.tb.list
  {
    hide Transfers, Ledger, Owners, WakeUps, FindTracker;
    var tb := s.mem.tb;
    if FindTracker(tb, b).Some? {
      RemoveFirstIs(tb.list, FindTracker(tb, b).value);
      assert RemoveTracker(tb, b).list == RemoveFirst(tb.list, FindTracker(tb, b).value);
    }
  }

  /** Whichever step of whichever thread adds a tracker to the list, the thread holds `w_lock` and
      `dl_lock`, and the block is unmarked and not tracked yet. */
  lemma TrackersAddedRightly(p: Params, s: State, step: Step, seg0: seq<bool>)
    requires p.blksz > 0 && Inv(p, s, seg0) && Enabled(p, s, step.t, step.act)
    ensures AddsRightly(p, s, Apply(p, s, step.t, step.act), step.t)
  {
    hide CommonInv, FileInv, Locals, MemInv, AddsRightly, Bad, EffectRead, EffectDown, EnabledRead, EnabledDown, RemoveTracker;
    var t, act, s' := step.t, step.act, Apply(p, s, step.t, step.act);
    if act.Read? && (act.r.ReadLaunch? || act.r.ReadSyncAdd? || act.r.ReadFindAhead?) {
      KeepAdd(p, s, t, act.r, seg0);
      SameAdds(p, s, EffectRead(p, s, t, act.r), s', t);
    } else {
      if act.Read? {
        ReadLists(p, s, t, act.r);
        Mover(p, s, t, act);
        RemoveAddsNothing(p, s, Cur(p, s.thr[t]));
      } else if act.Down? {
        DownLists(p, s, t, act.d);
        Mover(p, s, t, act);
        RemoveAddsNothing(p, s, Cur(p, s.thr[t]));
      }
      NoAddIsRight(p, s, s', t);
    }
  }

  lemma Mover(p: Params, s: State, t: Tid, act: Act)
    requires p.blksz > 0 && Enabled(p, s, t, act)
    ensures act.Read? || act.Down? ==> t in s.thr
  {
  }

  lemma SameAdds(p: Params, s: State, s1: State, s2: State, t: Tid)
    requires p.blksz > 0 && AddsRightly(p, s, s1, t) && s1.mem == s2.mem
    ensures AddsRightly(p, s, s2, t)
  {
  }

  /** At most one listed tracker per block. */
  lemma OneTrackerPerBlock(p: Params, s: State, a: Aid, b: Aid, seg0: seq<bool>)
    requires p.blksz > 0 && Inv(p, s, seg0) && a in s.mem.tb.list && b in s.mem.tb.list && At(s.mem.tb, a).blk == At(s.mem.tb, b).blk
    ensures a == b
  {
    hide CommonInv, FileInv, Locals, Transfers, Ledger, Owners, WakeUps;
  }

  // ----- waiting -----

  /** No lost wake-up: whoever sleeps on a tracker and has not been woken waits for bytes that have not
      arrived, on a tracker that is still listed, in a cache that is not shutting down. */
  lemma NoLostWakeUp(p: Params, s: State, t: Tid, seg0: seq<bool>)
    requires p.blksz > 0 && Inv(p, s, seg0) && IsReader(s, t) && s.thr[t].pc.Asleep? && t !in s.sig
    ensures var a := s.thr[t].pc.a;
            && a in s.mem.tb.list && !s.life.shutting
            && match At(s.mem.tb, a).ts
               case None => true
               case Some(u) => u in s.mem.ts && |s.mem.ts[u].data| < Need(p, s.thr[t].role.call)
  {
    hide CommonInv, FileInv, Locals, Transfers, Owners, Refs, WaitsOk, AttachesOk;
    assert WaitOn(s.thr[t]) == Some(s.thr[t].pc.a);
  }

  /** The reference count of an allocated tracker is exactly its listing, its sleeping waiters and its
      attached transfers; a tracker that any of these needs is allocated. */
  lemma TrackerLedger(p: Params, s: State, a: Aid, seg0: seq<bool>)
    requires p.blksz > 0 && Inv(p, s, seg0)
    ensures a in s.mem.tb.heap <==> a in s.mem.tb.list || WaitersOn(s.thr, a) != {} || AttachedTo(s.mem.ts, a) != {}
    ensures a in s.mem.tb.heap ==>
              s.mem.tb.heap[a].refs == (if a in s.mem.tb.list then 1 else 0) + |WaitersOn(s.thr, a)| + |AttachedTo(s.mem.ts, a)|
  {
    hide CommonInv, FileInv, Locals, Owners, WakeUps, PointersOk, TsOk;
    if a in s.mem.tb.heap {
      assert RefsOk(s.mem.tb, s.thr, s.mem.ts, a);
    }
    if t :| t in WaitersOn(s.thr, a) {
      assert WaitOn(s.thr[t]).Some?;
    }
    if t :| t in AttachedTo(s.mem.ts, a) {
      assert t in s.mem.ts && t in s.thr;
    }
  }

  /** The transfer structure a waiter looks into is live and holds the first bytes of the waiter's block. */
  lemma EarlyCopyIsSafe(p: Params, s: State, t: Tid, seg0: seq<bool>)
    requires p.blksz > 0 && Inv(p, s, seg0) && IsReader(s, t) && s.thr[t].pc.Asleep? && !At(s.mem.tb, s.thr[t].pc.a).unlinked
    ensures match At(s.mem.tb, s.thr[t].pc.a).ts
            case None => true
            case Some(u) =>
              && u in s.mem.ts && u in s.thr && Cur(p, s.thr[u]) == Cur(p, s.thr[t])
              && var lo := Lo(p, Cur(p, s.thr[t])); var n := |s.mem.ts[u].data|;
                 n <= Size(p, Cur(p, s.thr[t])) && lo + n <= |p.remote| && s.mem.ts[u].data == p.remote[lo..lo + n]
  {
    hide CommonInv, FileInv, Locals, Owners, WakeUps, Refs;
    assert WaitOn(s.thr[t]) == Some(s.thr[t].pc.a);
  }

  /** `waiters` counts the sleeping readers and the registered downloads, and never anything else. */
  lemma WaitersCounted(p: Params, s: State, seg0: seq<bool>)
    requires p.blksz > 0 && Inv(p, s, seg0)
    ensures s.waiters == |Waiting(s.thr) + Downloaders(s.thr)|
  {
    hide LocksW, LocksCf, LocksDl, NetOk, SlotCount, CloserWakeUp, Handles, Phases, FileInv, MemInv, Locals;
    assert Waiting(s.thr) !! Downloaders(s.thr);
  }

  // ----- closing -----

  /** Slots are neither lost nor made up while the cache is open. */
  lemma SlotsConserved(p: Params, s: State, seg0: seq<bool>)
    requires p.blksz > 0 && Inv(p, s, seg0) && !s.life.gone
    ensures s.sem >= 0 && s.sem + |SlotHolders(s.thr)| + TakenByCloser(p, s) == p.workers
  {
    hide LocksW, LocksCf, LocksDl, NetOk, WaiterCount, CloserWakeUp, Handles, Phases, FileInv, MemInv, Locals;
  }

  function TakenByCloser(p: Params, s: State): nat {
    if s.lk.cf.Some? && s.lk.cf.value in s.thr then Taken(p, s.thr[s.lk.cf.value]) else 0
  }

  /** The closer has taken every slot, or has finished. */
  predicate AllTaken(p: Params, s: State) {
    s.life.gone || (s.lk.cf.Some? && TakenByCloser(p, s) == p.workers)
  }

  lemma StaysTaken(p: Params, s: State, step: Step, seg0: seq<bool>)
    requires p.blksz > 0 && p.workers > 0 && Inv(p, s, seg0) && Enabled(p, s, step.t, step.act) && AllTaken(p, s)
    ensures var s' := Apply(p, s, step.t, step.act);
            && AllTaken(p, s') && s'.file.seg == s.file.seg && s'.file.disk == s.file.disk
            && (s.life.gone ==> s'.life.gone) && (s.file.saved.Some? ==> s'.file.saved == s.file.saved)
  {
    hide Inv, AllTaken, Enabled, Effect, Bad;
    TakenAlone(p, s, seg0);
    EffectStaysTaken(p, s, step);
    SameTaken(p, Effect(p, s, step.t, step.act), Apply(p, s, step.t, step.act));
  }

  lemma TakenAlone(p: Params, s: State, seg0: seq<bool>)
    requires p.blksz > 0 && Inv(p, s, seg0) && AllTaken(p, s)
    ensures OnlyClosers(s) && LocksCf(s) && Phases(s) && Locals(p, s)
  {
    Alone(p, s, seg0);
    hide LocksW, LocksDl, NetOk, WaiterCount, SlotCount, CloserWakeUp, Handles, MemInv, FileInv;
  }

  lemma SameTaken(p: Params, s: State, s': State)
    requires AllTaken(p, s) && s'.life == s.life && s'.lk == s.lk && s'.thr == s.thr
    ensures AllTaken(p, s')
  {
  }

  lemma EffectStaysTaken(p: Params, s: State, step: Step)
    requires p.blksz > 0 && p.workers > 0 && Enabled(p, s, step.t, step.act) && AllTaken(p, s)
    requires OnlyClosers(s) && LocksCf(s) && Phases(s) && Locals(p, s)
    ensures TakenKept(p, s, Effect(p, s, step.t, step.act))
  {
    hide EffectRead, EffectDown, EffectClose, EnabledRead, EnabledDown, EnabledClose, OnlyClosers, Locals, Phases, Cur, Lo;
    OthersIdle(p, s, step);
    if step.act.Close? {
      CloseStaysTaken(p, s, step.t, step.act.c);
    }
  }

  ghost predicate TakenKept(p: Params, s: State, s': State) {
    && AllTaken(p, s') && s'.file.seg == s.file.seg && s'.file.disk == s.file.disk
    && (s.life.gone ==> s'.life.gone) && (s.file.saved.Some? ==> s'.file.saved == s.file.saved)
  }

  lemma CloseStaysTaken(p: Params, s: State, t: Tid, act: CloseAct)
    requires p.blksz > 0 && p.workers > 0 && LocksCf(s) && Phases(s) && Locals(p, s) && AllTaken(p, s) && EnabledClose(p, s, t, act)
    ensures TakenKept(p, s, EffectClose(p, s, t, act))
  {
    hide ReleaseAll, WaitOn;
    assert LocalOk(p, s.thr[t]);
  }

  lemma OthersIdle(p: Params, s: State, step: Step)
    requires p.blksz > 0 && OnlyClosers(s) && Enabled(p, s, step.t, step.act)
    ensures !step.act.Read? && !step.act.Down?
  {
  }

  /** Once the last Cache_close has taken every slot, no thread changes the bitmap or the data file any
      more, whatever else happens; so what Meta_write saves is final. */
  lemma {:induction false} QuiescentClose(p: Params, s: State, run: seq<Step>, seg0: seq<bool>)
    requires p.blksz > 0 && p.workers > 0 && Inv(p, s, seg0) && IsRun(p, s, run) && AllTaken(p, s)
    ensures var s' := After(p, s, run); s'.file.seg == s.file.seg && s'.file.disk == s.file.disk && AllTaken(p, s')
    decreases |run|
  {
    hide Inv, Apply, Enabled, AllTaken;
    if run == [] {
    } else {
      StepKeeps(p, s, run[0].t, run[0].act, seg0);
      StaysTaken(p, s, run[0], seg0);
      QuiescentClose(p, Apply(p, s, run[0].t, run[0].act), run[1..], seg0);
    }
  }

  /** A whole session: opened on a data file that agrees with its bitmap, used in any interleaving and
      closed, the cache leaves a saved bitmap and a data file that agree with the remote file. */
  lemma Session(p: Params, seg: seq<bool>, disk: seq<byte>, s: State)
    requires p.blksz > 0 && Coherent(p, seg, disk) && Reachable(p, seg, disk, s) && s.life.gone
    ensures s.file.saved.Some? && Coherent(p, s.file.saved.value, s.file.disk)
    ensures forall b: nat :: Exists(seg, b) ==> Exists(s.file.saved.value, b)
    ensures !s.fault && forall t :: t in s.thr ==> !Active(s.thr[t])
  {
    hide LocksW, LocksCf, LocksDl, NetOk, WaiterCount, SlotCount, CloserWakeUp, Handles, MemInv, Locals, Misses, Coherent, Reachable;
    ReachableOk(p, seg, disk, s);
  }
}
