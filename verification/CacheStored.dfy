/** A download is not in vain: unless its transfer is given up or the data file cannot be written, its block
    ends up in the data file and marked, for good. */
module CacheStored {
  import opened Prelude
  import opened Blocks
  import opened CacheState
  import opened CacheInv
  import opened CacheSteps
  import opened CacheKeep
  import opened CacheFaults
  import opened CacheRuns
  import opened CacheTheorems
  import opened CacheOutcome
  import CachePieces

  // ----- one step -----

  /** Thread `t` has the whole block `b` and is about to write it. */
  predicate AboutToStore(p: Params, s: State, t: Tid, b: nat)
    requires p.blksz > 0
  {
    t in s.thr && !s.thr[t].role.Closer? && s.thr[t].pc.Store? && s.thr[t].pc.recv >= 0 && Cur(p, s.thr[t]) == b
  }

  /** The step in which `t` writes, and how many bytes the data file accepts. */
  predicate IsStore(step: Step, t: Tid) {
    step.t == t && ((step.act.Read? && step.act.r.ReadStore?) || (step.act.Down? && step.act.d.DownStore?))
  }

  function Accepted(step: Step): int
    requires IsStore(step, step.t)
  {
    if step.act.Read? then step.act.r.io else step.act.d.io
  }

  /** The block is marked, and its bytes in the data file are the remote's. */
  ghost predicate Cached(p: Params, f: File, b: nat)
    requires p.blksz > 0
  {
    && Exists(f.seg, b) && |p.remote| <= |f.disk|
    && forall i: nat :: i < |p.remote| && BlockOf(p, i) == b ==> f.disk[i] == p.remote[i]
  }

  lemma MarkedIsCached(p: Params, s: State, b: nat, seg0: seq<bool>)
    requires p.blksz > 0 && Inv(p, s, seg0) && Exists(s.file.seg, b)
    ensures Cached(p, s.file, b)
  {
    hide CommonInv, MemInv, Locals, LogOk, Misses, Saved;
  }

  lemma StoreBlockMarks(p: Params, f: File, b: nat, data: seq<byte>, io: int)
    requires data != [] && io >= |data| && b < |f.seg|
    ensures Exists(StoreBlock(p, f, b, data, io).seg, b)
  {
    hide WriteBytes;
  }

  /** Whoever writes a whole block with every byte accepted leaves it marked. */
  lemma StoreMarks(p: Params, s: State, step: Step, b: nat, seg0: seq<bool>)
    requires p.blksz > 0 && Inv(p, s, seg0) && Enabled(p, s, step.t, step.act) && AboutToStore(p, s, step.t, b) && IsStore(step, step.t)
    requires b < p.segbc && Accepted(step) >= Size(p, b)
    ensures Cached(p, Apply(p, s, step.t, step.act).file, b)
  {
    hide Apply, Enabled, Core, LocalOk, Cached;
    StoreKnows(p, s, step.t, seg0);
    StoreEffect(p, s, step, b);
    StepKeeps(p, s, step.t, step.act, seg0);
    MarkedIsCached(p, Apply(p, s, step.t, step.act), b, seg0);
  }

  lemma StoreKnows(p: Params, s: State, t: Tid, seg0: seq<bool>)
    requires p.blksz > 0 && Core(p, s, seg0) && t in s.thr && s.thr[t].pc.Store? && s.thr[t].pc.recv >= 0
    ensures LocalOk(p, s.thr[t]) && |s.thr[t].pc.data| == Size(p, Cur(p, s.thr[t])) > 0 && Lo(p, Cur(p, s.thr[t])) < |p.remote|
    ensures |s.file.seg| == p.segbc
  {
    OneLocal(p, s, t, seg0);
    RolesStore(p, s.thr[t]);
    hide CommonInv, MemInv, Locals, LogOk, Misses, Saved, LocalOk;
  }

  lemma RolesStore(p: Params, l: Local)
    requires p.blksz > 0 && LocalOk(p, l) && l.pc.Store? && l.pc.recv >= 0
    ensures |l.pc.data| == Size(p, Cur(p, l)) > 0 && Lo(p, Cur(p, l)) < |p.remote| && !l.role.Closer?
  {
    if l.role.Reader? {
      CachePieces.PieceInBlock(p, l);
    }
  }

  lemma StoreEffect(p: Params, s: State, step: Step, b: nat)
    requires p.blksz > 0 && Enabled(p, s, step.t, step.act) && AboutToStore(p, s, step.t, b) && IsStore(step, step.t)
    requires LocalOk(p, s.thr[step.t]) && |s.thr[step.t].pc.data| == Size(p, b) > 0 && Lo(p, b) < |p.remote|
    requires b < |s.file.seg| && Accepted(step) >= Size(p, b)
    ensures Exists(Apply(p, s, step.t, step.act).file.seg, b)
  {
    WholeBlockIsStored(p, b);
    StoreBlockMarks(p, s.file, b, s.thr[step.t].pc.data, Accepted(step));
    if step.act.Read? {
      CachePieces.FromDownload(p, s.thr[step.t]);
    }
    hide LocalOk, StoreBlock, Exists, Bad, AfterStore, Usable, Cur, Size, Lo, IsTail;
  }

  // ----- runs -----

  /** Thread `t` is downloading block `b`, and its transfer has not been given up. */
  ghost predicate Bringing(p: Params, s: State, t: Tid, b: nat)
    requires p.blksz > 0
  {
    && t in s.thr && !s.thr[t].role.Closer? && InDownload(s.thr[t].pc) && Cur(p, s.thr[t]) == b
    && (s.thr[t].pc.Store? ==> s.thr[t].pc.recv >= 0)
    && (t in s.mem.ts ==> !s.mem.ts[t].status.Fatal?)
  }

  /** The step neither gives up `t`'s transfer nor writes less than all of its block. */
  predicate Helps(p: Params, step: Step, t: Tid, b: nat)
    requires p.blksz > 0
  {
    && (step.act.Net? && step.act.n.NetComplete? && step.act.n.to == t ==> !step.act.n.status.Fatal?)
    && (IsStore(step, t) ==> Accepted(step) >= Size(p, b))
  }

  ghost predicate AllHelp(p: Params, run: seq<Step>, t: Tid, b: nat)
    requires p.blksz > 0
  {
    forall i :: 0 <= i < |run| ==> Helps(p, run[i], t, b)
  }

  lemma OtherBrings(p: Params, s: State, step: Step, t: Tid, b: nat)
    requires p.blksz > 0 && Enabled(p, s, step.t, step.act) && Bringing(p, s, t, b) && Helps(p, step, t, b)
    requires step.t != t || (!step.act.Read? && !step.act.Down?)
    ensures Bringing(p, Apply(p, s, step.t, step.act), t, b)
  {
    RecordStays(p, s, step.t, step.act, t);
    StatusStays(p, s, step, t);
    hide Apply, Enabled, Cur;
  }

  lemma StatusStays(p: Params, s: State, step: Step, t: Tid)
    requires p.blksz > 0 && Enabled(p, s, step.t, step.act) && (t in s.mem.ts ==> !s.mem.ts[t].status.Fatal?)
    requires step.act.Net? && step.act.n.NetComplete? && step.act.n.to == t ==> !step.act.n.status.Fatal?
    ensures var s' := Apply(p, s, step.t, step.act); t in s'.mem.ts ==> !s'.mem.ts[t].status.Fatal?
  {
    hide EffectRead, EffectDown, EffectClose, EnabledRead, EnabledDown, EnabledClose, Bad, Cur, Lo;
    if step.act.Read? {
      ReadTs(p, s, step.t, step.act.r);
    } else if step.act.Down? {
      DownStatus(p, s, step.t, step.act.d, t);
    } else if step.act.Close? {
      CloseTs(p, s, step.t, step.act.c);
    }
  }

  lemma DownStatus(p: Params, s: State, u: Tid, act: DownAct, t: Tid)
    requires p.blksz > 0 && EnabledDown(s, u, act) && (t in s.mem.ts ==> !s.mem.ts[t].status.Fatal?)
    ensures var s' := EffectDown(p, s, u, act); t in s'.mem.ts ==> !s'.mem.ts[t].status.Fatal?
  {
    hide FindTracker, RemoveTracker, StoreBlock, WakeAll, WakeCloser, DetachTs, AttachTs, AfterTransfer;
  }

  /** The downloader's own step, other than the write: it goes on with the download. */
  lemma DownBrings(p: Params, s: State, t: Tid, act: DownAct, b: nat)
    requires p.blksz > 0 && EnabledDown(s, t, act) && !act.DownStore? && Bringing(p, s, t, b)
    ensures Bringing(p, EffectDown(p, s, t, act), t, b)
  {
    hide FindTracker, RemoveTracker, WakeAll, WakeCloser, DetachTs, AttachTs, Size, Lo;
  }

  lemma OnlyStores(p: Params, s: State, t: Tid, act: ReadAct, b: nat)
    requires p.blksz > 0 && EnabledRead(p, s, t, act) && Bringing(p, s, t, b)
    ensures act.ReadStore?
  {
  }

  lemma OwnBrings(p: Params, s: State, step: Step, t: Tid, b: nat, seg0: seq<bool>)
    requires p.blksz > 0 && Inv(p, s, seg0) && Enabled(p, s, step.t, step.act) && Bringing(p, s, t, b) && Helps(p, step, t, b)
    requires step.t == t && (step.act.Read? || step.act.Down?) && b < p.segbc
    ensures Bringing(p, Apply(p, s, t, step.act), t, b) || Exists(Apply(p, s, t, step.act).file.seg, b)
  {
    hide Inv, EffectRead, EffectDown, EnabledRead, EnabledDown, Bad, Cur, Size, Cached;
    if step.act.Read? {
      OnlyStores(p, s, t, step.act.r, b);
    }
    if IsStore(step, t) {
      StoreAct(p, s, step);
      StoreMarks(p, s, step, b, seg0);
      CachedExists(p, Apply(p, s, t, step.act).file, b);
    } else {
      DownBrings(p, s, t, step.act.d, b);
    }
  }

  lemma CachedExists(p: Params, f: File, b: nat)
    requires p.blksz > 0 && Cached(p, f, b)
    ensures Exists(f.seg, b)
  {
  }

  lemma StoreAct(p: Params, s: State, step: Step)
    requires p.blksz > 0 && Enabled(p, s, step.t, step.act) && IsStore(step, step.t)
    ensures step.t in s.thr && s.thr[step.t].pc.Store?
  {
  }

  /** A download that is not given up, and whose block is written whole, leaves the block marked. */
  lemma {:induction false} DownloadStores(p: Params, s: State, run: seq<Step>, t: Tid, b: nat, seg0: seq<bool>)
    requires p.blksz > 0 && Inv(p, s, seg0) && IsRun(p, s, run) && b < p.segbc && AllHelp(p, run, t, b)
    requires Bringing(p, s, t, b)
    ensures var s' := After(p, s, run); Bringing(p, s', t, b) || Exists(s'.file.seg, b)
    decreases |run|
  {
    hide Inv, Apply, Enabled, Bringing, Helps;
    if run == [] {
    } else {
      var s1 := Apply(p, s, run[0].t, run[0].act);
      assert Helps(p, run[0], t, b);
      assert AllHelp(p, run[1..], t, b) by {
        RestHelps(p, run, t, b);
      }
      StepKeeps(p, s, run[0].t, run[0].act, seg0);
      if run[0].t == t && (run[0].act.Read? || run[0].act.Down?) {
        OwnBrings(p, s, run[0], t, b, seg0);
      } else {
        OtherBrings(p, s, run[0], t, b);
      }
      if Exists(s1.file.seg, b) {
        MarkedForGood(p, s1, run[1..], b, seg0);
      } else {
        DownloadStores(p, s1, run[1..], t, b, seg0);
      }
    }
  }

  lemma RestHelps(p: Params, run: seq<Step>, t: Tid, b: nat)
    requires p.blksz > 0 && run != [] && AllHelp(p, run, t, b)
    ensures AllHelp(p, run[1..], t, b)
  {
    forall i | 0 <= i < |run[1..]|
      ensures Helps(p, run[1..][i], t, b)
    {
      assert run[1..][i] == run[i + 1];
    }
  }

  /** The new background thread downloads the block its launcher has added a tracker for: the following one
      for a prefetch, else that of the piece. */
  ghost predicate LaunchedFor(p: Params, l: Local, s': State, bg: Tid)
    requires p.blksz > 0 && l.pc.Spawn?
  {
    var b := Cur(p, l) + (if l.pc.ahead then 1 else 0);
    Own(p, l) == Some(b) && Bringing(p, s', bg, b) && s'.thr[bg].role.Bg?
  }

  lemma SpawnBrings(p: Params, s: State, t: Tid, bg: Tid)
    requires p.blksz > 0 && IsReader(s, t) && s.thr[t].pc.Spawn? && bg !in s.thr && bg !in s.mem.ts
    ensures LaunchedFor(p, s.thr[t], DoSpawn(p, s, t, bg), bg)
  {
  }

  lemma LaunchBrings(p: Params, s: State, t: Tid, bg: Tid, seg0: seq<bool>)
    requires p.blksz > 0 && Inv(p, s, seg0) && Enabled(p, s, t, Read(ReadSpawn(bg))) && t in s.thr && s.thr[t].pc.Spawn?
    ensures LaunchedFor(p, s.thr[t], Apply(p, s, t, Read(ReadSpawn(bg))), bg)
  {
    hide Inv, Bad, EffectRead, EnabledRead, LaunchedFor;
    NewTs(p, s, bg, seg0);
    SpawnActs(p, s, t, bg);
    SameLaunch(p, s.thr[t], EffectRead(p, s, t, ReadSpawn(bg)), Apply(p, s, t, Read(ReadSpawn(bg))), bg);
  }

  lemma SpawnActs(p: Params, s: State, t: Tid, bg: Tid)
    requires p.blksz > 0 && EnabledRead(p, s, t, ReadSpawn(bg)) && (bg !in s.thr ==> bg !in s.mem.ts) && s.thr[t].pc.Spawn?
    ensures LaunchedFor(p, s.thr[t], EffectRead(p, s, t, ReadSpawn(bg)), bg)
  {
    SpawnBrings(p, s, t, bg);
    hide LaunchedFor, DoSpawn;
  }

  lemma NewTs(p: Params, s: State, t: Tid, seg0: seq<bool>)
    requires p.blksz > 0 && Inv(p, s, seg0)
    ensures t !in s.thr ==> t !in s.mem.ts
  {
    hide Core;
    if t !in s.thr {
      NewHasNoTs(p, s, t, seg0);
    }
  }

  lemma SameLaunch(p: Params, l: Local, s: State, s': State, bg: Tid)
    requires p.blksz > 0 && l.pc.Spawn? && LaunchedFor(p, l, s, bg) && s'.thr == s.thr && s'.mem == s.mem
    ensures LaunchedFor(p, l, s', bg)
  {
    hide Own, Cur;
  }

  /** The block stays cached, and is among those saved if the cache has been closed. */
  lemma CachedForGood(p: Params, s: State, run: seq<Step>, b: nat, seg0: seq<bool>)
    requires p.blksz > 0 && Inv(p, s, seg0) && IsRun(p, s, run) && Exists(s.file.seg, b)
    ensures var f := After(p, s, run).file; Cached(p, f, b) && (f.saved.Some? ==> Exists(f.saved.value, b))
  {
    hide Inv, IsRun, After, Cached;
    RunKeeps(p, s, run, seg0);
    MarkedForGood(p, s, run, b, seg0);
    MarkedIsCached(p, After(p, s, run), b, seg0);
    SavedIs(p, After(p, s, run), seg0);
  }

  lemma SavedIs(p: Params, s: State, seg0: seq<bool>)
    requires p.blksz > 0 && Inv(p, s, seg0)
    ensures s.file.saved.Some? ==> s.file.saved.value == s.file.seg
  {
    hide CommonInv, MemInv, Locals, LogOk, Misses, Coherent;
  }
}
