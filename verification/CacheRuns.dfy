/** Whole runs of the segment cache: what holds in every reachable state, and what a read returns. */
module CacheRuns {
  import opened Prelude
  import opened Blocks
  import opened CacheState
  import opened CacheInv
  import opened CacheTable
  import opened CacheSteps
  import opened CachePieces
  import opened CacheKeep
  import opened CacheOther
  import opened CacheClose
  import opened CacheFaults

  datatype Step = Step(t: Tid, act: Act)

  /** `run` is a sequence of enabled steps from `s`. */
  ghost predicate IsRun(p: Params, s: State, run: seq<Step>)
    requires p.blksz > 0
    decreases |run|
  {
    run == [] || (Enabled(p, s, run[0].t, run[0].act) && IsRun(p, Apply(p, s, run[0].t, run[0].act), run[1..]))
  }

  ghost function After(p: Params, s: State, run: seq<Step>): State
    requires p.blksz > 0 && IsRun(p, s, run)
    decreases |run|
  {
    if run == [] then s else After(p, Apply(p, s, run[0].t, run[0].act), run[1..])
  }

  lemma {:induction false} RunKeeps(p: Params, s: State, run: seq<Step>, seg0: seq<bool>)
    requires p.blksz > 0 && IsRun(p, s, run) && Inv(p, s, seg0)
    ensures Inv(p, After(p, s, run), seg0)
    decreases |run|
  {
    hide Inv, Apply, Enabled;
    if run == [] {
    } else {
      StepKeeps(p, s, run[0].t, run[0].act, seg0);
      RunKeeps(p, Apply(p, s, run[0].t, run[0].act), run[1..], seg0);
    }
  }

  /** The states an open cache can be in, from what opening found on disk. */
  ghost predicate Reachable(p: Params, seg: seq<bool>, disk: seq<byte>, s: State)
    requires p.blksz > 0
  {
    exists h: Hid, run: seq<Step> :: IsRun(p, InitState(p, seg, disk, h), run) && After(p, InitState(p, seg, disk, h), run) == s
  }

  /** The invariant holds, and nothing has gone wrong, in every reachable state. */
  lemma ReachableOk(p: Params, seg: seq<bool>, disk: seq<byte>, s: State)
    requires p.blksz > 0 && Coherent(p, seg, disk) && Reachable(p, seg, disk, s)
    ensures Inv(p, s, seg)
  {
    hide Inv, Coherent;
    var h: Hid, run: seq<Step> :| IsRun(p, InitState(p, seg, disk, h), run) && After(p, InitState(p, seg, disk, h), run) == s;
    InitOk(p, seg, disk, h);
    RunKeeps(p, InitState(p, seg, disk, h), run, seg);
  }

  // ----- a read keeps its request -----

  /** A thread keeps its role, and a reader its handle, offset and length; what has returned stays returned. */
  ghost predicate SameJob(l: Local, l': Local) {
    && (if l.role.Reader?
        then && l'.role.Reader? && l'.role.call.h == l.role.call.h && l'.role.call.off == l.role.call.off
             && l'.role.call.want == l.role.call.want
        else l'.role == l.role)
    && (l.pc.Done? ==> l' == l)
  }

  ghost predicate SameJobs(s: State, s': State) {
    forall t :: t in s.thr ==> t in s'.thr && SameJob(s.thr[t], s'.thr[t])
  }

  /** Only `t`'s record changes, apart from a thread that is new, and `t` keeps its job. */
  ghost predicate OneJob(s: State, s': State, t: Tid) {
    && t in s.thr && t in s'.thr && SameJob(s.thr[t], s'.thr[t])
    && forall u :: u in s.thr && u != t ==> u in s'.thr && s'.thr[u] == s.thr[u]
  }

  /** The steps of a reader that are sections under `dl_lock`. */
  predicate ReadSection(act: ReadAct) {
    || act.ReadFind? || act.ReadLaunch? || act.ReadRegister? || act.ReadWake? || act.ReadSyncAdd? || act.ReadUntrack?
    || act.ReadFindAhead?
  }

  lemma LockedJob(p: Params, s: State, t: Tid, act: ReadAct)
    requires p.blksz > 0 && EnabledRead(p, s, t, act) && ReadSection(act)
    ensures OneJob(s, EffectRead(p, s, t, act), t)
  {
    hide FindTracker, AddTracker, RemoveTracker, UnrefTracker, RefTracker, WakeAll, WakeCloser, EarlyCopy, Cur;
  }

  lemma FreeJob(p: Params, s: State, t: Tid, act: ReadAct)
    requires p.blksz > 0 && EnabledRead(p, s, t, act) && !ReadSection(act)
    ensures OneJob(s, EffectRead(p, s, t, act), t)
  {
    hide StoreBlock, ReadData, HasNext, Usable, PieceLen, Cur, Exists, Need, Skip, Child;
  }

  lemma ReadJobs(p: Params, s: State, t: Tid, act: ReadAct)
    requires p.blksz > 0 && EnabledRead(p, s, t, act)
    ensures SameJobs(s, EffectRead(p, s, t, act))
  {
    hide EffectRead, EnabledRead;
    if ReadSection(act) {
      LockedJob(p, s, t, act);
    } else {
      FreeJob(p, s, t, act);
    }
  }

  lemma DownJobs(p: Params, s: State, t: Tid, act: DownAct)
    requires p.blksz > 0 && EnabledDown(s, t, act)
    ensures SameJobs(s, EffectDown(p, s, t, act))
  {
    hide FindTracker, AddTracker, RemoveTracker, StoreBlock, WakeAll, WakeCloser, AfterTransfer, DetachTs, AttachTs;
  }

  lemma CloseJobs(p: Params, s: State, t: Tid, act: CloseAct)
    requires p.blksz > 0 && EnabledClose(p, s, t, act)
    ensures SameJobs(s, EffectClose(p, s, t, act))
  {
    hide ReleaseAll;
  }

  lemma StepJobs(p: Params, s: State, t: Tid, act: Act)
    requires p.blksz > 0 && Enabled(p, s, t, act)
    ensures SameJobs(s, Apply(p, s, t, act))
  {
    hide EffectRead, EffectDown, EffectClose, EnabledRead, EnabledDown, EnabledClose, Bad, Cur, Lo;
    if act.Read? {
      ReadJobs(p, s, t, act.r);
    } else if act.Down? {
      DownJobs(p, s, t, act.d);
    } else if act.Close? {
      CloseJobs(p, s, t, act.c);
    }
  }

  // ----- a read that meets no failure -----

  /** The step serves `t`'s piece from the data file: it looks at the bitmap, and the block is marked. */
  predicate ReadsFile(p: Params, s: State, t: Tid, step: Step)
    requires p.blksz > 0
  {
    && step.t == t && IsReader(s, t) && step.act.Read?
    && ((step.act.r.ReadCheck? && s.thr[t].pc.Check?) || (step.act.r.ReadRecheck? && s.thr[t].pc.Recheck?))
    && Exists(s.file.seg, Cur(p, s.thr[t]))
  }

  /** What can go wrong for a reader: its own transfer ends for good, the data file cannot be read, or it
      yields less than the piece. */
  datatype Failure = LostTransfer | LostRead | ShortRead

  ghost predicate Hits(p: Params, s: State, t: Tid, step: Step, f: Failure)
    requires p.blksz > 0
  {
    match f
    case LostTransfer => step.act.Net? && step.act.n.NetComplete? && step.act.n.to == t && step.act.n.status.Fatal?
    case LostRead => ReadsFile(p, s, t, step) && step.act.r.io < 0
    case ShortRead => ReadsFile(p, s, t, step) && 0 <= step.act.r.io < PieceLen(p, s.thr[t].role.call)
  }

  /** A step in which the disk or the network lets reader `t` down. */
  ghost predicate Fails(p: Params, s: State, t: Tid, step: Step)
    requires p.blksz > 0
  {
    Hits(p, s, t, step, LostTransfer) || Hits(p, s, t, step, LostRead) || Hits(p, s, t, step, ShortRead)
  }

  lemma FullRead(p: Params, l: Local, disk: seq<byte>, io: int)
    requires p.blksz > 0 && l.role.Reader? && !l.pc.Done? && LocalOk(p, l) && |p.remote| <= |disk| && io >= PieceLen(p, l.role.call)
    ensures var c := l.role.call; ReadData(p, disk, Start(c), PieceLen(p, c), io).0 == PieceLen(p, c)
  {
    PieceInBlock(p, l);
    hide LocalOk, PieceLen;
  }

  ghost predicate Unfailed(s: State, t: Tid) {
    && t in s.thr
    && (s.thr[t].role.Reader? ==> s.thr[t].role.call.clean && (s.thr[t].pc.Store? ==> s.thr[t].pc.recv >= 0))
    && (t in s.mem.ts ==> !s.mem.ts[t].status.Fatal?)
  }

  lemma StoreUnfailed(p: Params, l: Local)
    requires p.blksz > 0 && l.role.Reader? && l.pc.Store? && LocalOk(p, l) && l.role.call.clean && l.pc.recv >= 0
    ensures AfterStore(p, l).role.call.clean && AfterStore(p, l).pc.Untrack?
  {
    FromDownload(p, l);
    PieceInBlock(p, l);
  }

  lemma SectionUnfailed(p: Params, s: State, t: Tid, act: ReadAct)
    requires p.blksz > 0 && EnabledRead(p, s, t, act) && Unfailed(s, t) && ReadSection(act) && !s.life.shutting
    ensures Unfailed(EffectRead(p, s, t, act), t)
  {
    hide FindTracker, AddTracker, RemoveTracker, UnrefTracker, RefTracker, WakeAll, WakeCloser, EarlyCopy, Cur;
  }

  lemma FreeUnfailed(p: Params, s: State, t: Tid, act: ReadAct)
    requires p.blksz > 0 && EnabledRead(p, s, t, act) && Unfailed(s, t) && !ReadSection(act) && LocalOk(p, s.thr[t])
    requires !Fails(p, s, t, Step(t, Read(act))) && |p.remote| <= |s.file.disk|
    ensures Unfailed(EffectRead(p, s, t, act), t)
  {
    if act.ReadStore? {
      StoreUnfailed(p, s.thr[t]);
    }
    if ReadsFile(p, s, t, Step(t, Read(act))) {
      FullRead(p, s.thr[t], s.file.disk, act.io);
    }
    hide StoreBlock, ReadData, HasNext, Usable, PieceLen, Cur, Exists, Child, LocalOk, AfterStore;
  }

  lemma OthersUnfailed(p: Params, s: State, t: Tid, u: Tid, act: ReadAct)
    requires p.blksz > 0 && EnabledRead(p, s, u, act) && Unfailed(s, t) && t != u
    ensures Unfailed(EffectRead(p, s, u, act), t)
  {
    if ReadSection(act) {
      LockedJob(p, s, u, act);
    } else {
      FreeJob(p, s, u, act);
    }
    ReadTs(p, s, u, act);
    hide EffectRead, EnabledRead, SameJob;
  }

  lemma ReadTs(p: Params, s: State, t: Tid, act: ReadAct)
    requires p.blksz > 0 && EnabledRead(p, s, t, act)
    ensures EffectRead(p, s, t, act).mem.ts == s.mem.ts
  {
    hide FindTracker, AddTracker, RemoveTracker, UnrefTracker, RefTracker, WakeAll, WakeCloser;
    hide AfterWait, StoreBlock, Usable, AfterStore, AfterPiece, Cur;
  }

  lemma ReadUnfailed(p: Params, s: State, t: Tid, u: Tid, act: ReadAct)
    requires p.blksz > 0 && EnabledRead(p, s, u, act) && Unfailed(s, t) && !Fails(p, s, t, Step(u, Read(act)))
    requires !s.life.shutting && LocalOk(p, s.thr[u]) && |p.remote| <= |s.file.disk|
    ensures Unfailed(EffectRead(p, s, u, act), t)
  {
    hide EffectRead, EnabledRead, Unfailed, Fails, LocalOk;
    if u != t {
      OthersUnfailed(p, s, t, u, act);
    } else if ReadSection(act) {
      SectionUnfailed(p, s, t, act);
    } else {
      FreeUnfailed(p, s, t, act);
    }
  }

  lemma DownUnfailed(p: Params, s: State, t: Tid, u: Tid, act: DownAct)
    requires p.blksz > 0 && EnabledDown(s, u, act) && Unfailed(s, t)
    ensures Unfailed(EffectDown(p, s, u, act), t)
  {
    hide FindTracker, AddTracker, RemoveTracker, StoreBlock, WakeAll, WakeCloser, DetachTs, AttachTs;
  }

  lemma MoverOk(p: Params, s: State, t: Tid, seg0: seq<bool>)
    requires p.blksz > 0 && Inv(p, s, seg0) && IsReader(s, t) && Active(s.thr[t])
    ensures !s.life.shutting && LocalOk(p, s.thr[t])
  {
    hide LocksW, LocksCf, LocksDl, NetOk, WaiterCount, SlotCount, CloserWakeUp, Handles, Phases, MemInv, FileInv, LocalOk;
    NotSavedYet(p, s, t);
  }

  /** The data file is as long as the remote file. */
  lemma DiskLength(p: Params, s: State, seg0: seq<bool>)
    requires p.blksz > 0 && Inv(p, s, seg0)
    ensures |p.remote| <= |s.file.disk|
  {
    hide CommonInv, MemInv, Locals, LogOk, Misses, Saved;
  }

  lemma MoverActive(p: Params, s: State, t: Tid, act: ReadAct)
    requires p.blksz > 0 && EnabledRead(p, s, t, act)
    ensures IsReader(s, t) && Active(s.thr[t])
  {
  }

  lemma StepUnfailed(p: Params, s: State, t: Tid, step: Step, seg0: seq<bool>)
    requires p.blksz > 0 && Inv(p, s, seg0) && Enabled(p, s, step.t, step.act) && Unfailed(s, t) && !Fails(p, s, t, step)
    ensures Unfailed(Apply(p, s, step.t, step.act), t)
  {
    hide Inv, EffectRead, EffectDown, EffectClose, EnabledRead, EnabledDown, EnabledClose, Bad, LocalOk, Cur, Lo, PieceLen, ReadData, ReadsFile;
    if step.act.Read? {
      MoverActive(p, s, step.t, step.act.r);
      MoverOk(p, s, step.t, seg0);
      DiskLength(p, s, seg0);
      ReadUnfailed(p, s, t, step.t, step.act.r);
    } else if step.act.Down? {
      DownUnfailed(p, s, t, step.t, step.act.d);
    } else if step.act.Close? {
      CloseUnfailed(p, s, t, step.t, step.act.c);
    }
  }

  lemma CloseUnfailed(p: Params, s: State, t: Tid, u: Tid, act: CloseAct)
    requires p.blksz > 0 && EnabledClose(p, s, u, act) && Unfailed(s, t)
    ensures Unfailed(EffectClose(p, s, u, act), t)
  {
    hide ReleaseAll;
  }

  // ----- what a read returns -----

  /** No step of the run is a failure of `t`'s disk or network. */
  ghost predicate NoFailure(p: Params, s: State, run: seq<Step>, t: Tid)
    requires p.blksz > 0 && IsRun(p, s, run)
    decreases |run|
  {
    run != [] ==> !Fails(p, s, t, run[0]) && NoFailure(p, Apply(p, s, run[0].t, run[0].act), run[1..], t)
  }

  lemma {:induction false} CallKept(p: Params, s: State, run: seq<Step>, t: Tid, seg0: seq<bool>)
    requires p.blksz > 0 && IsRun(p, s, run) && Inv(p, s, seg0) && t in s.thr
    ensures var s' := After(p, s, run);
            t in s'.thr && SameJob(s.thr[t], s'.thr[t]) && (Unfailed(s, t) && NoFailure(p, s, run, t) ==> Unfailed(s', t))
    decreases |run|
  {
    hide Inv, Apply, Enabled, Unfailed, Fails;
    if run == [] {
    } else {
      var s1 := Apply(p, s, run[0].t, run[0].act);
      StepKeeps(p, s, run[0].t, run[0].act, seg0);
      StepJobs(p, s, run[0].t, run[0].act);
      if Unfailed(s, t) && NoFailure(p, s, run, t) {
        StepUnfailed(p, s, t, run[0], seg0);
      }
      CallKept(p, s1, run[1..], t, seg0);
    }
  }

  /** Whatever the interleaving, a Cache_read called with `off` and `req` that returns `n >= 0` has
      delivered the remote bytes `[off, off + n)`, never more than a plain read would; and it returns
      exactly what a plain read would unless its own disk or network failed. */
  lemma ReadIsPlain(p: Params, s: State, run: seq<Step>, t: Tid, h: Hid, off: int, req: int, seg0: seq<bool>)
    requires p.blksz > 0 && Inv(p, s, seg0) && Enabled(p, s, t, Env(CallRead(h, off, req)))
    requires var s1 := Apply(p, s, t, Env(CallRead(h, off, req)));
             IsRun(p, s1, run) && t in After(p, s1, run).thr && After(p, s1, run).thr[t].pc.Done?
    ensures var s1 := Apply(p, s, t, Env(CallRead(h, off, req)));
            var l := After(p, s1, run).thr[t];
            && l.role.Reader?
            && (l.pc.n >= 0 ==> var n := l.pc.n; var got := l.role.call.got;
                 && |got| == n <= PlainLength(p, off, req)
                 && forall i :: 0 <= i < n ==> 0 <= off + i < |p.remote| && got[i] == p.remote[off + i])
            && (req >= 0 && NoFailure(p, s1, run, t) ==> l.pc.n == PlainLength(p, off, req))
            && (req < 0 ==> l.pc.n == -EINVAL)
  {
    hide Bad, Core;
    var s1 := Apply(p, s, t, Env(CallRead(h, off, req)));
    StepKeeps(p, s, t, Env(CallRead(h, off, req)), seg0);
    CallKept(p, s1, run, t, seg0);
    RunKeeps(p, s1, run, seg0);
    assert req >= 0 ==> Unfailed(s1, t) by {
      NewHasNoTs(p, s, t, seg0);
    }
    Outcome(p, After(p, s1, run), t, h, off, req, seg0);
  }

  /** A finished call, told from its record alone. */
  lemma Outcome(p: Params, s: State, t: Tid, h: Hid, off: int, req: int, seg0: seq<bool>)
    requires p.blksz > 0 && Core(p, s, seg0) && t in s.thr && s.thr[t].pc.Done? && SameJob(NewReader(p, h, off, req), s.thr[t])
    ensures var l := s.thr[t];
            && (l.pc.n >= 0 ==> var n := l.pc.n; var got := l.role.call.got;
                 && |got| == n <= PlainLength(p, off, req)
                 && forall i :: 0 <= i < n ==> 0 <= off + i < |p.remote| && got[i] == p.remote[off + i])
            && (req >= 0 && Unfailed(s, t) ==> l.pc.n == PlainLength(p, off, req))
            && (req < 0 ==> l.pc.n == -EINVAL)
  {
    hide Core;
    OneLocal(p, s, t, seg0);
  }

  lemma OneLocal(p: Params, s: State, t: Tid, seg0: seq<bool>)
    requires p.blksz > 0 && Core(p, s, seg0) && t in s.thr
    ensures LocalOk(p, s.thr[t])
  {
    hide CommonInv, MemInv, FileInv, LocalOk;
  }

  lemma NewHasNoTs(p: Params, s: State, t: Tid, seg0: seq<bool>)
    requires p.blksz > 0 && Core(p, s, seg0) && t !in s.thr
    ensures t !in s.mem.ts
  {
    hide CommonInv, FileInv, ListOk, Ledger, Owners, WakeUps, TsOk, Locals;
  }
}
