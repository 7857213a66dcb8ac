/** What the segment cache promises, for every state an open cache can reach: any number of readers,
    background downloads and closers, in any interleaving, from any opening whose data file agrees with
    its bitmap. */
module CachePromises {
  import opened Prelude
  import opened Blocks
  import opened CacheState
  import opened CacheInv
  import opened CacheRuns
  import opened CacheKeep
  import CacheFaults
  import CacheProgress
  import CacheTheorems
  import CacheEnding
  import CacheOutcome
  import CacheStored
  import CacheAhead

  /** A Cache_read called with `off` and `req` that has returned `n >= 0` has delivered the remote bytes
      `[off, off + n)`, never more than a plain read would; and exactly what a plain read would, unless
      its own disk or network failed. */
  lemma ReadsArePlain(p: Params, seg: seq<bool>, disk: seq<byte>, s: State, t: Tid, h: Hid, off: int, req: int, run: seq<Step>)
    requires p.blksz > 0 && Coherent(p, seg, disk) && Reachable(p, seg, disk, s)
    requires Enabled(p, s, t, Env(CallRead(h, off, req))) && IsRun(p, Apply(p, s, t, Env(CallRead(h, off, req))), run)
    ensures var s1 := Apply(p, s, t, Env(CallRead(h, off, req)));
            var s' := After(p, s1, run);
            && t in s'.thr && s'.thr[t].role.Reader?
            && (s'.thr[t].pc.Done? ==>
                 var n, got := s'.thr[t].pc.n, s'.thr[t].role.call.got;
                 && (n >= 0 ==> |got| == n <= PlainLength(p, off, req)
                                && forall i :: 0 <= i < n ==> 0 <= off + i < |p.remote| && got[i] == p.remote[off + i])
                 && (req >= 0 && NoFailure(p, s1, run, t) ==> n == PlainLength(p, off, req))
                 && (req < 0 ==> n == -EINVAL))
  {
    hide Inv, Coherent, Reachable, Enabled, Apply, IsRun, After, NoFailure;
    ReachableOk(p, seg, disk, s);
    var s1 := Apply(p, s, t, Env(CallRead(h, off, req)));
    StartsReading(p, s, t, h, off, req, seg);
    CallKept(p, s1, run, t, seg);
    if After(p, s1, run).thr[t].pc.Done? {
      ReadIsPlain(p, s, run, t, h, off, req, seg);
    }
  }

  /** The `i`th byte is asked for and exists. */
  ghost predicate AskedFor(p: Params, off: int, req: int, i: nat) {
    off >= 0 && i < req && off + i < |p.remote|
  }

  /** A plain read of the remote file returns the bytes that are asked for and exist. */
  lemma PlainLengthIs(p: Params, off: int, req: int)
    ensures forall i: nat :: AskedFor(p, off, req, i) <==> i < PlainLength(p, off, req)
  {
  }

  /** What a finished read returns tells what happened to it, in every interleaving: -ENOENT if and only if its own
      transfer was given up, -EIO if and only if the data file could not be read, a short count if and only if
      the data file was short, and otherwise every byte a plain read would return. */
  lemma ReadsReport(p: Params, seg: seq<bool>, disk: seq<byte>, s: State, t: Tid, h: Hid, off: int, req: nat, run: seq<Step>)
    requires p.blksz > 0 && Coherent(p, seg, disk) && Reachable(p, seg, disk, s)
    requires Enabled(p, s, t, Env(CallRead(h, off, req)))
    requires var s1 := Apply(p, s, t, Env(CallRead(h, off, req)));
             IsRun(p, s1, run) && t in After(p, s1, run).thr && After(p, s1, run).thr[t].pc.Done?
    ensures var s1 := Apply(p, s, t, Env(CallRead(h, off, req)));
            CacheOutcome.Reports(p, s1, run, t, After(p, s1, run).thr[t].pc.n, PlainLength(p, off, req))
  {
    hide Inv, Coherent, Reachable, Enabled, Apply, IsRun, After, CacheOutcome.Reports, PlainLength;
    ReachableOk(p, seg, disk, s);
    CacheOutcome.ReadReports(p, s, run, t, h, off, req, seg);
  }

  lemma StartsReading(p: Params, s: State, t: Tid, h: Hid, off: int, req: int, seg: seq<bool>)
    requires p.blksz > 0 && Inv(p, s, seg) && Enabled(p, s, t, Env(CallRead(h, off, req)))
    ensures var s1 := Apply(p, s, t, Env(CallRead(h, off, req)));
            Inv(p, s1, seg) && t in s1.thr && s1.thr[t].role.Reader?
  {
    CacheFaults.StepKeeps(p, s, t, Env(CallRead(h, off, req)), seg);
    hide Inv, Bad;
  }

  /** No step of a reachable state is a fault: nothing freed is touched, no lock in use is destroyed. */
  lemma NothingGoesWrong(p: Params, seg: seq<bool>, disk: seq<byte>, s: State, t: Tid, act: Act)
    requires p.blksz > 0 && Coherent(p, seg, disk) && Reachable(p, seg, disk, s) && Enabled(p, s, t, act)
    ensures !s.fault && !Bad(p, s, t, act)
  {
    ReachableOk(p, seg, disk, s);
    hide Core, Coherent, Reachable, Enabled, Bad;
    CacheFaults.NoFault(p, s, t, act, seg);
  }

  /** No stuck state: an unfinished reader, background thread or closer means that some step other than a
      new FUSE call or a spurious wake-up is enabled, whatever locks are held and whoever sleeps. */
  lemma NeverStuck(p: Params, seg: seq<bool>, disk: seq<byte>, s: State, t: Tid)
    requires p.blksz > 0 && Coherent(p, seg, disk) && Reachable(p, seg, disk, s) && t in s.thr && Active(s.thr[t])
    ensures exists u: Tid, act: Act :: Enabled(p, s, u, act) && !act.Env?
  {
    hide Inv, Coherent, Reachable, Enabled;
    ReachableOk(p, seg, disk, s);
    CacheProgress.NoStuckState(p, s, t, seg);
  }

  /** No reachable state is a trap: by a run without further FUSE calls or spurious wake-ups, in which
      neither disk nor network fails, every reader, background thread and closer comes to its end. */
  lemma CanAlwaysFinish(p: Params, seg: seq<bool>, disk: seq<byte>, s: State)
    requires p.blksz > 0 && Coherent(p, seg, disk) && Reachable(p, seg, disk, s)
    ensures exists run: seq<Step> ::
              IsRun(p, s, run) && CacheEnding.GoodRun(p, s, run) && CacheEnding.Ends(s, After(p, s, run))
  {
    hide Inv, Coherent, Reachable, IsRun, After, CacheEnding.GoodRun, CacheEnding.Ends;
    ReachableOk(p, seg, disk, s);
    var run := CacheEnding.CanFinish(p, s, seg);
  }

  /** A Cache_read called in a reachable state can complete, and can return what a plain read would. */
  lemma ReadCanComplete(p: Params, seg: seq<bool>, disk: seq<byte>, s: State, t: Tid, h: Hid, off: int, req: nat)
    requires p.blksz > 0 && Coherent(p, seg, disk) && Reachable(p, seg, disk, s) && Enabled(p, s, t, Env(CallRead(h, off, req)))
    ensures var s1 := Apply(p, s, t, Env(CallRead(h, off, req)));
            exists run: seq<Step> :: IsRun(p, s1, run) && t in After(p, s1, run).thr
                                     && After(p, s1, run).thr[t].pc == Done(PlainLength(p, off, req))
  {
    hide Inv, Coherent, Reachable, Enabled, Apply, IsRun, After, PlainLength;
    ReachableOk(p, seg, disk, s);
    var run := CacheEnding.CanRead(p, s, t, h, off, req, seg);
  }

  /** Single flight: two threads never download the same block at the same time, a block being downloaded
      is unmarked and has its tracker listed, and no block has two listed trackers. */
  lemma SingleFlight(p: Params, seg: seq<bool>, disk: seq<byte>, s: State, t: Tid, u: Tid)
    requires p.blksz > 0 && Coherent(p, seg, disk) && Reachable(p, seg, disk, s)
    requires t in s.thr && InDownload(s.thr[t].pc) && !s.thr[t].role.Closer?
    requires u in s.thr && InDownload(s.thr[u].pc) && !s.thr[u].role.Closer?
    ensures Cur(p, s.thr[t]) == Cur(p, s.thr[u]) ==> t == u
    ensures !Exists(s.file.seg, Cur(p, s.thr[t])) && Tracked(s.mem.tb, Cur(p, s.thr[t]))
    ensures forall a, b :: a in s.mem.tb.list && b in s.mem.tb.list && At(s.mem.tb, a).blk == At(s.mem.tb, b).blk ==> a == b
  {
    hide Inv, Coherent, Reachable, Tracked;
    ReachableOk(p, seg, disk, s);
    CacheTheorems.SingleFlight(p, s, t, u, seg);
    forall a, b | a in s.mem.tb.list && b in s.mem.tb.list && At(s.mem.tb, a).blk == At(s.mem.tb, b).blk
      ensures a == b
    {
      CacheTheorems.OneTrackerPerBlock(p, s, a, b, seg);
    }
  }

  /** Whichever step adds a tracker, its thread holds `w_lock` and `dl_lock`, and the block is unmarked and
      has no listed tracker yet. */
  lemma TrackersAddedRightly(p: Params, seg: seq<bool>, disk: seq<byte>, s: State, t: Tid, act: Act, a: Aid)
    requires p.blksz > 0 && Coherent(p, seg, disk) && Reachable(p, seg, disk, s) && Enabled(p, s, t, act)
    requires a in Apply(p, s, t, act).mem.tb.list && a !in s.mem.tb.list
    ensures s.lk.w == Some(t) && s.lk.dl == Some(t)
    ensures var b := At(Apply(p, s, t, act).mem.tb, a).blk; !Exists(s.file.seg, b) && !Tracked(s.mem.tb, b)
  {
    hide Inv, Coherent, Reachable, Enabled, Apply;
    ReachableOk(p, seg, disk, s);
    CacheTheorems.TrackersAddedRightly(p, s, Step(t, act), seg);
  }

  /** A marked block stays marked and is never written again; so each block is marked at most once. */
  lemma MarkedOnce(p: Params, seg: seq<bool>, disk: seq<byte>, s: State, run: seq<Step>, b: nat)
    requires p.blksz > 0 && Coherent(p, seg, disk) && Reachable(p, seg, disk, s) && IsRun(p, s, run) && Exists(s.file.seg, b)
    ensures Exists(After(p, s, run).file.seg, b) && !CacheTheorems.WrittenIn(p, s, run, b)
  {
    hide Inv, Coherent, Reachable, IsRun, After;
    ReachableOk(p, seg, disk, s);
    CacheTheorems.MarkedForGood(p, s, run, b, seg);
  }

  /** The bitmap is the one found at opening plus the blocks stored since, each of them stored once, and
      every marked block's bytes are the remote's. */
  lemma StoredOnce(p: Params, seg: seq<bool>, disk: seq<byte>, s: State)
    requires p.blksz > 0 && Coherent(p, seg, disk) && Reachable(p, seg, disk, s)
    ensures |s.file.seg| == |seg|
    ensures forall b: nat :: b < |seg| ==> (s.file.seg[b] <==> seg[b] || b in s.file.log)
    ensures forall i, j :: 0 <= i < j < |s.file.log| ==> s.file.log[i] != s.file.log[j]
    ensures forall b: nat :: b in s.file.log ==> b < |seg| && !seg[b]
    ensures Coherent(p, s.file.seg, s.file.disk)
  {
    hide Coherent, Reachable, CommonInv, MemInv, Locals, Misses;
    ReachableOk(p, seg, disk, s);
  }

  /** No lost wake-up: whoever sleeps and has not been woken waits for bytes that have not arrived, on a
      tracker that is still listed, in a cache that is not shutting down. */
  lemma NoLostWakeUp(p: Params, seg: seq<bool>, disk: seq<byte>, s: State, t: Tid)
    requires p.blksz > 0 && Coherent(p, seg, disk) && Reachable(p, seg, disk, s)
    requires IsReader(s, t) && s.thr[t].pc.Asleep? && t !in s.sig
    ensures var a := s.thr[t].pc.a;
            && a in s.mem.tb.list && !s.life.shutting
            && match At(s.mem.tb, a).ts
               case None => true
               case Some(u) => u in s.mem.ts && |s.mem.ts[u].data| < Need(p, s.thr[t].role.call)
  {
    hide Inv, Coherent, Reachable;
    ReachableOk(p, seg, disk, s);
    CacheTheorems.NoLostWakeUp(p, s, t, seg);
  }

  /** The tracker ledger: an allocated tracker's reference count is its listing, its sleeping waiters and
      its attached transfers, and it is allocated exactly while one of these exists. */
  lemma TrackerLedger(p: Params, seg: seq<bool>, disk: seq<byte>, s: State, a: Aid)
    requires p.blksz > 0 && Coherent(p, seg, disk) && Reachable(p, seg, disk, s)
    ensures a in s.mem.tb.heap <==> a in s.mem.tb.list || WaitersOn(s.thr, a) != {} || AttachedTo(s.mem.ts, a) != {}
    ensures a in s.mem.tb.heap ==>
              s.mem.tb.heap[a].refs == (if a in s.mem.tb.list then 1 else 0) + |WaitersOn(s.thr, a)| + |AttachedTo(s.mem.ts, a)|
  {
    hide Inv, Coherent, Reachable, WaitersOn, AttachedTo;
    ReachableOk(p, seg, disk, s);
    CacheTheorems.TrackerLedger(p, s, a, seg);
  }

  /** The transfer structure a waiter may copy from is live and holds a prefix of the waiter's block. */
  lemma EarlyCopyIsSafe(p: Params, seg: seq<bool>, disk: seq<byte>, s: State, t: Tid)
    requires p.blksz > 0 && Coherent(p, seg, disk) && Reachable(p, seg, disk, s)
    requires IsReader(s, t) && s.thr[t].pc.Asleep? && !At(s.mem.tb, s.thr[t].pc.a).unlinked
    ensures match At(s.mem.tb, s.thr[t].pc.a).ts
            case None => true
            case Some(u) =>
              && u in s.mem.ts && u in s.thr && Cur(p, s.thr[u]) == Cur(p, s.thr[t])
              && var lo := Lo(p, Cur(p, s.thr[t])); var n := |s.mem.ts[u].data|;
                 n <= Size(p, Cur(p, s.thr[t])) && lo + n <= |p.remote| && s.mem.ts[u].data == p.remote[lo..lo + n]
  {
    hide Inv, Coherent, Reachable;
    ReachableOk(p, seg, disk, s);
    CacheTheorems.EarlyCopyIsSafe(p, s, t, seg);
  }

  /** `waiters` counts the sleeping readers and the registered downloads; semaphore value, slots in use
      and slots taken by the closer add up to the number of background workers. */
  lemma CountsAreRight(p: Params, seg: seq<bool>, disk: seq<byte>, s: State)
    requires p.blksz > 0 && Coherent(p, seg, disk) && Reachable(p, seg, disk, s)
    ensures s.waiters == |Waiting(s.thr) + Downloaders(s.thr)|
    ensures !s.life.gone ==> s.sem >= 0 && s.sem + |SlotHolders(s.thr)| + CacheTheorems.TakenByCloser(p, s) == p.workers
  {
    hide Inv, Coherent, Reachable, Waiting, Downloaders, SlotHolders, CacheTheorems.TakenByCloser;
    ReachableOk(p, seg, disk, s);
    CacheTheorems.WaitersCounted(p, s, seg);
    if !s.life.gone {
      CacheTheorems.SlotsConserved(p, s, seg);
    }
  }

  /** Once the last Cache_close has taken every slot, no thread changes the bitmap or the data file any
      more; so what Meta_write saves is final. */
  lemma QuiescentClose(p: Params, seg: seq<bool>, disk: seq<byte>, s: State, run: seq<Step>)
    requires p.blksz > 0 && p.workers > 0 && Coherent(p, seg, disk) && Reachable(p, seg, disk, s) && IsRun(p, s, run)
    requires CacheTheorems.AllTaken(p, s)
    ensures var s' := After(p, s, run);
            s'.file.seg == s.file.seg && s'.file.disk == s.file.disk && CacheTheorems.AllTaken(p, s')
  {
    hide Inv, Coherent, Reachable, IsRun, After, CacheTheorems.AllTaken;
    ReachableOk(p, seg, disk, s);
    CacheTheorems.QuiescentClose(p, s, run, seg);
  }

  // ----- downloads are not in vain -----

  /** The step that writes a whole block, with every byte accepted, leaves the block marked and its bytes right. */
  lemma StoresMark(p: Params, seg: seq<bool>, disk: seq<byte>, s: State, step: Step, b: nat)
    requires p.blksz > 0 && Coherent(p, seg, disk) && Reachable(p, seg, disk, s) && Enabled(p, s, step.t, step.act)
    requires CacheStored.AboutToStore(p, s, step.t, b) && CacheStored.IsStore(step, step.t)
    requires b < p.segbc && CacheStored.Accepted(step) >= Size(p, b)
    ensures CacheStored.Cached(p, Apply(p, s, step.t, step.act).file, b)
  {
    hide Inv, Coherent, Reachable, Enabled, Apply, CacheStored.Cached;
    ReachableOk(p, seg, disk, s);
    CacheStored.StoreMarks(p, s, step, b, seg);
  }

  /** A download, by a reader or in the background, that is not given up and whose block is written whole is over
      only when the block is marked; its bytes in the data file are then the remote's, and it is among the
      blocks saved at closing. */
  lemma DownloadsAreKept(p: Params, seg: seq<bool>, disk: seq<byte>, s: State, run: seq<Step>, t: Tid, b: nat)
    requires p.blksz > 0 && Coherent(p, seg, disk) && Reachable(p, seg, disk, s) && IsRun(p, s, run)
    requires b < p.segbc && CacheStored.Bringing(p, s, t, b) && CacheStored.AllHelp(p, run, t, b)
    ensures var s' := After(p, s, run);
            CacheStored.Bringing(p, s', t, b)
            || (CacheStored.Cached(p, s'.file, b) && (s'.file.saved.Some? ==> Exists(s'.file.saved.value, b)))
  {
    hide Inv, Coherent, Reachable, IsRun, After, CacheStored.Bringing, CacheStored.AllHelp, CacheStored.Cached;
    ReachableOk(p, seg, disk, s);
    CacheStored.DownloadStores(p, s, run, t, b, seg);
    var s' := After(p, s, run);
    RunKeeps(p, s, run, seg);
    if Exists(s'.file.seg, b) {
      CacheStored.MarkedIsCached(p, s', b, seg);
      CacheStored.SavedIs(p, s', seg);
    }
  }

  /** Creating a background thread begins the download of its block: of the following block for a prefetch, else of
      the block of the piece. */
  lemma LaunchesDownload(p: Params, seg: seq<bool>, disk: seq<byte>, s: State, t: Tid, bg: Tid)
    requires p.blksz > 0 && Coherent(p, seg, disk) && Reachable(p, seg, disk, s) && Enabled(p, s, t, Read(ReadSpawn(bg)))
    requires t in s.thr && s.thr[t].pc.Spawn?
    ensures CacheStored.LaunchedFor(p, s.thr[t], Apply(p, s, t, Read(ReadSpawn(bg))), bg)
  {
    hide Inv, Coherent, Reachable, Enabled, Apply, CacheStored.LaunchedFor;
    ReachableOk(p, seg, disk, s);
    CacheStored.LaunchBrings(p, s, t, bg, seg);
  }

  /** Prefetching happens: a reader that has finished a piece from a block with a successor has not passed the
      successor over; since it began the piece there was a time at which no slot was free, the successor was
      marked, or another thread, perhaps one it created, owned the successor's tracker. */
  lemma FetchesAhead(p: Params, seg: seq<bool>, disk: seq<byte>, s: State, run: seq<Step>, t: Tid)
    requires p.blksz > 0 && Coherent(p, seg, disk) && Reachable(p, seg, disk, s) && IsRun(p, s, run)
    requires IsReader(s, t) && s.thr[t].pc.Check? && HasNext(p, s.thr[t]) && t in After(p, s, run).thr
    requires var l' := After(p, s, run).thr[t];
             l'.role.Reader? && l'.pc.EndPiece? && l'.ret >= 0 && |l'.role.call.got| == |s.thr[t].role.call.got|
    ensures CacheAhead.Sometime(p, s, run, t, Cur(p, s.thr[t]) + 1)
  {
    hide Inv, Coherent, Reachable, IsRun, After, CacheAhead.Sometime, HasNext, Cur;
    ReachableOk(p, seg, disk, s);
    CacheAhead.FetchesAhead(p, s, run, t, seg);
  }

  /** A reader downloads the block of its piece itself, or waits for it, only if since it began the piece there was a
      time at which no slot was free or another thread, perhaps one it created, owned the block's tracker. */
  lemma LaunchesFirst(p: Params, seg: seq<bool>, disk: seq<byte>, s: State, run: seq<Step>, t: Tid)
    requires p.blksz > 0 && Coherent(p, seg, disk) && Reachable(p, seg, disk, s) && IsRun(p, s, run)
    requires IsReader(s, t) && s.thr[t].pc.Check? && t in After(p, s, run).thr
    requires var l' := After(p, s, run).thr[t];
             l'.role.Reader? && (InDownload(l'.pc) || l'.pc.Asleep?) && |l'.role.call.got| == |s.thr[t].role.call.got|
    ensures CacheAhead.Sometime(p, s, run, t, Cur(p, s.thr[t]))
  {
    hide Inv, Coherent, Reachable, IsRun, After, CacheAhead.Sometime, Cur;
    ReachableOk(p, seg, disk, s);
    CacheAhead.LaunchesFirst(p, s, run, t, seg);
  }

  /** Once every handle has been released and every thread has ended, the bitmap has been saved and released, no
      tracker is left and the cache is destroyed. */
  lemma LastCloseDestroys(p: Params, seg: seq<bool>, disk: seq<byte>, s: State)
    requires p.blksz > 0 && Coherent(p, seg, disk) && Reachable(p, seg, disk, s)
    requires s.life.handles == {} && forall t :: t in s.thr ==> !Active(s.thr[t])
    ensures s.life.gone && s.file.saved.Some? && s.file.segFreed && s.life.shutting && s.mem == Mem(Table(map[], []), map[])
  {
    hide Coherent, Reachable;
    CacheEnding.LastCloseDestroys(p, seg, disk, s);
  }
}
