/** What a read reports: each kind of failure of its disk or network has its own answer, and without a
    failure the answer is that of a plain read. */
module CacheOutcome {
  import opened Prelude
  import opened Blocks
  import opened CacheState
  import opened CacheInv
  import opened CacheSteps
  import opened CachePieces
  import opened CacheFaults
  import opened CacheRuns

  // ----- a step leaves the other threads alone -----

  lemma ReadAlone(p: Params, s: State, u: Tid, act: ReadAct, t: Tid)
    requires p.blksz > 0 && EnabledRead(p, s, u, act) && t in s.thr && t != u
    ensures t in EffectRead(p, s, u, act).thr && EffectRead(p, s, u, act).thr[t] == s.thr[t]
  {
    if ReadSection(act) {
      LockedJob(p, s, u, act);
    } else {
      FreeJob(p, s, u, act);
    }
    hide EffectRead, EnabledRead, SameJob;
  }

  lemma DownAlone(p: Params, s: State, u: Tid, act: DownAct, t: Tid)
    requires p.blksz > 0 && EnabledDown(s, u, act) && t in s.thr && t != u
    ensures t in EffectDown(p, s, u, act).thr && EffectDown(p, s, u, act).thr[t] == s.thr[t]
  {
    hide FindTracker, RemoveTracker, StoreBlock, WakeAll, WakeCloser, AfterTransfer, DetachTs, AttachTs;
  }

  lemma CloseAlone(p: Params, s: State, u: Tid, act: CloseAct, t: Tid)
    requires p.blksz > 0 && EnabledClose(p, s, u, act) && t in s.thr && t != u
    ensures t in EffectClose(p, s, u, act).thr && EffectClose(p, s, u, act).thr[t] == s.thr[t]
  {
    hide ReleaseAll;
  }

  /** Only its own sections and downloads change a reader's record. */
  lemma RecordStays(p: Params, s: State, u: Tid, act: Act, t: Tid)
    requires p.blksz > 0 && Enabled(p, s, u, act) && t in s.thr && !s.thr[t].role.Closer?
    requires t != u || (!act.Read? && !act.Down?)
    ensures t in Apply(p, s, u, act).thr && Apply(p, s, u, act).thr[t] == s.thr[t]
  {
    hide EffectRead, EffectDown, EffectClose, EnabledRead, EnabledDown, EnabledClose, Bad, Cur, Lo;
    if act.Read? {
      ReadAlone(p, s, u, act.r, t);
    } else if act.Down? {
      DownAlone(p, s, u, act.d, t);
    } else if act.Close? && t != u {
      CloseAlone(p, s, u, act.c, t);
    } else if act.Close? {
      CloserActs(p, s, u, act.c);
    }
  }

  lemma CloserActs(p: Params, s: State, u: Tid, act: CloseAct)
    requires EnabledClose(p, s, u, act)
    ensures IsCloser(s, u)
  {
  }

  // ----- a failure decides the answer -----

  /** The piece has been served, and the reader is past its own download. */
  ghost predicate Served(pc: Pc) {
    HasAnswer(pc) && !pc.Untrack?
  }

  /** After the failure: the reader is on its way to returning what stands for it. */
  ghost predicate Doomed(p: Params, s: State, t: Tid, f: Failure)
    requires p.blksz > 0
  {
    && IsReader(s, t)
    && var l := s.thr[t];
    match f
    case LostTransfer =>
      || (HasTs(l) && t in s.mem.ts && s.mem.ts[t].status.Fatal? && !s.mem.ts[t].on)
      || (l.pc.Store? && l.pc.recv == -ENOENT)
      || ((l.pc.Untrack? || l.pc.EndPiece?) && l.ret == -ENOENT)
      || l.pc == Done(-ENOENT)
    case LostRead => (Served(l.pc) && l.ret == -EIO) || l.pc == Done(-EIO)
    case ShortRead => (Served(l.pc) && 0 <= l.ret < PieceLen(p, l.role.call)) || (l.pc.Done? && 0 <= l.pc.n < l.role.call.want)
  }

  lemma DownTs(p: Params, s: State, u: Tid, act: DownAct, t: Tid)
    requires p.blksz > 0 && EnabledDown(s, u, act) && t in s.mem.ts && t in s.thr && HasTs(s.thr[t]) && (u == t ==> !act.DownDetach?)
    ensures t in EffectDown(p, s, u, act).mem.ts && EffectDown(p, s, u, act).mem.ts[t] == s.mem.ts[t]
  {
    hide FindTracker, RemoveTracker, StoreBlock, WakeAll, WakeCloser, AfterTransfer, DetachTs, AttachTs;
  }

  /** A transfer that is over stays as it ended until its own thread takes it down. */
  lemma TransferStays(p: Params, s: State, u: Tid, act: Act, t: Tid)
    requires p.blksz > 0 && Enabled(p, s, u, act) && t in s.mem.ts && t in s.thr && HasTs(s.thr[t])
    requires !(u == t && act.Down? && act.d.DownDetach?) && !s.mem.ts[t].on
    ensures var s' := Apply(p, s, u, act);
            t in s'.mem.ts && s'.mem.ts[t].status == s.mem.ts[t].status && s'.mem.ts[t].on == s.mem.ts[t].on
  {
    hide EffectRead, EffectDown, EffectClose, EnabledRead, EnabledDown, EnabledClose, Bad, Cur, Lo;
    if act.Read? {
      ReadTs(p, s, u, act.r);
    } else if act.Down? {
      DownTs(p, s, u, act.d, t);
    } else if act.Close? {
      CloseTs(p, s, u, act.c);
    }
  }

  lemma CloseTs(p: Params, s: State, u: Tid, act: CloseAct)
    requires EnabledClose(p, s, u, act)
    ensures EffectClose(p, s, u, act).mem.ts == s.mem.ts
  {
    hide ReleaseAll;
  }

  /** A section of the reader after its failure. */
  lemma SectionDoomed(p: Params, s: State, t: Tid, act: ReadAct, f: Failure)
    requires p.blksz > 0 && EnabledRead(p, s, t, act) && ReadSection(act) && Doomed(p, s, t, f)
    ensures Doomed(p, EffectRead(p, s, t, act), t, f)
  {
    hide FindTracker, AddTracker, RemoveTracker, DoFind, DoWake, DoLaunch, DoSyncAdd, WakeAll, Cur, PieceLen;
  }

  lemma AheadDoomed(p: Params, s: State, t: Tid, act: ReadAct, f: Failure)
    requires p.blksz > 0 && EnabledRead(p, s, t, act) && (act.ReadPeek? || act.ReadTryAhead? || act.ReadLockAhead? || act.ReadBackOff?)
    requires Doomed(p, s, t, f)
    ensures Doomed(p, EffectRead(p, s, t, act), t, f)
  {
    hide HasNext, PieceLen, Cur, Exists;
  }

  lemma LookDoomed(p: Params, s: State, t: Tid, act: ReadAct, f: Failure)
    requires p.blksz > 0 && EnabledRead(p, s, t, act) && (act.ReadCheck? || act.ReadRecheck? || act.ReadTrySlot? || act.ReadSpawn?)
    requires Doomed(p, s, t, f)
    ensures Doomed(p, EffectRead(p, s, t, act), t, f)
  {
    hide DoCheck, DoTrySlot, PieceLen, Cur, Child;
  }

  lemma FreeDoomed(p: Params, s: State, t: Tid, act: ReadAct, f: Failure)
    requires p.blksz > 0 && EnabledRead(p, s, t, act) && !ReadSection(act) && !act.ReadEndPiece? && !act.ReadStore?
    requires Doomed(p, s, t, f)
    ensures Doomed(p, EffectRead(p, s, t, act), t, f)
  {
    hide EnabledRead, EffectRead, Doomed;
    if act.ReadPeek? || act.ReadTryAhead? || act.ReadLockAhead? || act.ReadBackOff? {
      AheadDoomed(p, s, t, act, f);
    } else {
      LookDoomed(p, s, t, act, f);
    }
  }

  lemma StoreDoomed(p: Params, s: State, t: Tid, io: int, f: Failure)
    requires p.blksz > 0 && EnabledRead(p, s, t, ReadStore(io)) && Doomed(p, s, t, f)
    ensures Doomed(p, EffectRead(p, s, t, ReadStore(io)), t, f)
  {
    hide StoreBlock, Storable, PieceLen, Need, Skip, Cur;
  }

  lemma EndDoomed(p: Params, s: State, t: Tid, f: Failure)
    requires p.blksz > 0 && EnabledRead(p, s, t, ReadEndPiece) && Doomed(p, s, t, f) && LocalOk(p, s.thr[t])
    ensures Doomed(p, EffectRead(p, s, t, ReadEndPiece), t, f)
  {
    PieceInBlock(p, s.thr[t]);
    hide PieceLen, Cur, HasNext;
  }

  lemma DownDoomed(p: Params, s: State, t: Tid, act: DownAct, f: Failure)
    requires p.blksz > 0 && EnabledDown(s, t, act) && Doomed(p, s, t, f)
    ensures Doomed(p, EffectDown(p, s, t, act), t, f)
  {
    hide FindTracker, RemoveTracker, StoreBlock, WakeAll, WakeCloser, DetachTs, AttachTs, PieceLen, Cur, Size;
  }

  /** Whatever any thread does next, the reader's answer is settled. */
  lemma DoomedStays(p: Params, s: State, t: Tid, step: Step, f: Failure, seg0: seq<bool>)
    requires p.blksz > 0 && Inv(p, s, seg0) && Enabled(p, s, step.t, step.act) && Doomed(p, s, t, f)
    ensures Doomed(p, Apply(p, s, step.t, step.act), t, f)
  {
    hide Inv, Apply, Enabled, Doomed;
    if step.t == t && (step.act.Read? || step.act.Down?) {
      OwnDoomed(p, s, t, step.act, f, seg0);
    } else {
      OtherDoomed(p, s, t, step, f);
    }
  }

  lemma OwnDoomed(p: Params, s: State, t: Tid, act: Act, f: Failure, seg0: seq<bool>)
    requires p.blksz > 0 && Inv(p, s, seg0) && Enabled(p, s, t, act) && (act.Read? || act.Down?) && Doomed(p, s, t, f)
    ensures Doomed(p, Apply(p, s, t, act), t, f)
  {
    hide Inv, EffectRead, EffectDown, EnabledRead, EnabledDown, Bad, Doomed, LocalOk;
    if act.Down? {
      DownDoomed(p, s, t, act.d, f);
      SameDoom(p, EffectDown(p, s, t, act.d), Apply(p, s, t, act), t, f);
    } else {
      if ReadSection(act.r) {
        SectionDoomed(p, s, t, act.r, f);
      } else if act.r.ReadEndPiece? {
        MoverActive(p, s, t, act.r);
        MoverOk(p, s, t, seg0);
        EndDoomed(p, s, t, f);
      } else if act.r.ReadStore? {
        StoreDoomed(p, s, t, act.r.io, f);
      } else {
        FreeDoomed(p, s, t, act.r, f);
      }
      SameDoom(p, EffectRead(p, s, t, act.r), Apply(p, s, t, act), t, f);
    }
  }

  lemma SameDoom(p: Params, s: State, s': State, t: Tid, f: Failure)
    requires p.blksz > 0 && Doomed(p, s, t, f) && s'.thr == s.thr && s'.mem == s.mem
    ensures Doomed(p, s', t, f)
  {
  }

  lemma OtherDoomed(p: Params, s: State, t: Tid, step: Step, f: Failure)
    requires p.blksz > 0 && Enabled(p, s, step.t, step.act) && Doomed(p, s, t, f)
    requires step.t != t || (!step.act.Read? && !step.act.Down?)
    ensures Doomed(p, Apply(p, s, step.t, step.act), t, f)
  {
    hide Apply, Enabled, PieceLen;
    RecordStays(p, s, step.t, step.act, t);
    if f.LostTransfer? && HasTs(s.thr[t]) {
      TransferStays(p, s, step.t, step.act, t);
    }
  }

  /** A failure settles the reader's answer. */
  lemma Dooms(p: Params, s: State, t: Tid, step: Step, f: Failure, seg0: seq<bool>)
    requires p.blksz > 0 && Inv(p, s, seg0) && Enabled(p, s, step.t, step.act) && IsReader(s, t) && Hits(p, s, t, step, f)
    ensures Doomed(p, Apply(p, s, step.t, step.act), t, f)
  {
    hide Inv, LocalOk, Bad, Doomed, EffectRead, EffectDown, EffectClose, EnabledRead, EnabledDown, EnabledClose, PieceLen, Cur, Lo, Exists;
    if f.LostTransfer? {
      NetDooms(p, s, t, step);
    } else {
      MoverActive(p, s, t, step.act.r);
      MoverOk(p, s, t, seg0);
      DiskLength(p, s, seg0);
      ReadDooms(p, s, t, step, f);
      SameDoom(p, EffectRead(p, s, t, step.act.r), Apply(p, s, t, step.act), t, f);
    }
  }

  lemma NetDooms(p: Params, s: State, t: Tid, step: Step)
    requires p.blksz > 0 && Enabled(p, s, step.t, step.act) && IsReader(s, t) && Hits(p, s, t, step, LostTransfer)
    ensures Doomed(p, Apply(p, s, step.t, step.act), t, LostTransfer)
  {
    hide Bad, Lo, Size, Cur;
  }

  lemma ReadDooms(p: Params, s: State, t: Tid, step: Step, f: Failure)
    requires p.blksz > 0 && step.act.Read? && EnabledRead(p, s, t, step.act.r) && IsReader(s, t) && LocalOk(p, s.thr[t])
    requires !f.LostTransfer? && Hits(p, s, t, step, f) && |p.remote| <= |s.file.disk|
    ensures Doomed(p, EffectRead(p, s, t, step.act.r), t, f)
  {
    PieceInBlock(p, s.thr[t]);
    hide LocalOk, PieceLen, Exists, Cur;
  }

  // ----- runs -----

  /** Some step of the run is this failure. */
  ghost predicate Met(p: Params, s: State, run: seq<Step>, t: Tid, f: Failure)
    requires p.blksz > 0 && IsRun(p, s, run)
    decreases |run|
  {
    run != [] && (Hits(p, s, t, run[0], f) || Met(p, Apply(p, s, run[0].t, run[0].act), run[1..], t, f))
  }

  lemma {:induction false} StaysDoomed(p: Params, s: State, run: seq<Step>, t: Tid, f: Failure, seg0: seq<bool>)
    requires p.blksz > 0 && Inv(p, s, seg0) && IsRun(p, s, run) && Doomed(p, s, t, f)
    ensures Doomed(p, After(p, s, run), t, f)
    decreases |run|
  {
    hide Inv, Apply, Enabled, Doomed;
    if run == [] {
    } else {
      StepKeeps(p, s, run[0].t, run[0].act, seg0);
      DoomedStays(p, s, t, run[0], f, seg0);
      StaysDoomed(p, Apply(p, s, run[0].t, run[0].act), run[1..], t, f, seg0);
    }
  }

  lemma {:induction false} MetDooms(p: Params, s: State, run: seq<Step>, t: Tid, f: Failure, seg0: seq<bool>)
    requires p.blksz > 0 && Inv(p, s, seg0) && IsRun(p, s, run) && IsReader(s, t) && Met(p, s, run, t, f)
    ensures Doomed(p, After(p, s, run), t, f)
    decreases |run|
  {
    hide Inv, Apply, Enabled, Doomed, Hits;
    if run == [] {
    } else {
      var s1 := Apply(p, s, run[0].t, run[0].act);
      StepKeeps(p, s, run[0].t, run[0].act, seg0);
      if Hits(p, s, t, run[0], f) {
        Dooms(p, s, t, run[0], f, seg0);
        StaysDoomed(p, s1, run[1..], t, f, seg0);
      } else {
        StepJobs(p, s, run[0].t, run[0].act);
        MetDooms(p, s1, run[1..], t, f, seg0);
      }
    }
  }

  lemma {:induction false} MetNothing(p: Params, s: State, run: seq<Step>, t: Tid)
    requires p.blksz > 0 && IsRun(p, s, run)
    ensures NoFailure(p, s, run, t)
            <==> !Met(p, s, run, t, LostTransfer) && !Met(p, s, run, t, LostRead) && !Met(p, s, run, t, ShortRead)
    decreases |run|
  {
    hide Apply, Enabled, Hits;
    if run != [] {
      MetNothing(p, Apply(p, s, run[0].t, run[0].act), run[1..], t);
    }
  }

  /** What `n` says about the failures of a read of `len` plain bytes. */
  ghost predicate Reports(p: Params, s: State, run: seq<Step>, t: Tid, n: int, len: nat)
    requires p.blksz > 0 && IsRun(p, s, run)
  {
    && (Met(p, s, run, t, LostTransfer) <==> n == -ENOENT)
    && (Met(p, s, run, t, LostRead) <==> n == -EIO)
    && (Met(p, s, run, t, ShortRead) <==> 0 <= n < len)
    && (n == -ENOENT || n == -EIO || 0 <= n <= len)
  }

  /** A finished read of a valid request tells exactly what happened to it: -ENOENT if and only if its own
      transfer was given up, -EIO if and only if the data file could not be read, a short count if and
      only if the data file was short, and else every byte. */
  lemma ReadReports(p: Params, s: State, run: seq<Step>, t: Tid, h: Hid, off: int, req: nat, seg0: seq<bool>)
    requires p.blksz > 0 && Inv(p, s, seg0) && Enabled(p, s, t, Env(CallRead(h, off, req)))
    requires var s1 := Apply(p, s, t, Env(CallRead(h, off, req)));
             IsRun(p, s1, run) && t in After(p, s1, run).thr && After(p, s1, run).thr[t].pc.Done?
    ensures var s1 := Apply(p, s, t, Env(CallRead(h, off, req)));
            Reports(p, s1, run, t, After(p, s1, run).thr[t].pc.n, PlainLength(p, off, req))
  {
    hide Inv, Bad, IsRun, After, Doomed;
    var s1 := Apply(p, s, t, Env(CallRead(h, off, req)));
    StepKeeps(p, s, t, Env(CallRead(h, off, req)), seg0);
    ReadIsPlain(p, s, run, t, h, off, req, seg0);
    CallKept(p, s1, run, t, seg0);
    MetNothing(p, s1, run, t);
    forall f: Failure | Met(p, s1, run, t, f)
      ensures DoneBy(f, After(p, s1, run).thr[t].pc.n, PlainLength(p, off, req))
    {
      MetDooms(p, s1, run, t, f, seg0);
      DoomedDone(p, After(p, s1, run), t, f);
    }
  }

  ghost predicate DoneBy(f: Failure, n: int, len: nat) {
    match f
    case LostTransfer => n == -ENOENT
    case LostRead => n == -EIO
    case ShortRead => 0 <= n < len
  }

  lemma DoomedDone(p: Params, s: State, t: Tid, f: Failure)
    requires p.blksz > 0 && Doomed(p, s, t, f) && s.thr[t].pc.Done?
    ensures DoneBy(f, s.thr[t].pc.n, s.thr[t].role.call.want)
  {
  }

  /** A download that failed or is not the whole block is reported and not stored, whatever state it came from. */
  lemma UnusableIsReported(p: Params, s: State, t: Tid, io: int)
    requires p.blksz > 0 && EnabledRead(p, s, t, ReadStore(io))
    requires var recv, n, b := s.thr[t].pc.recv, |s.thr[t].pc.data|, Cur(p, s.thr[t]);
             recv < 0 || n < Need(p, s.thr[t].role.call) || (n != p.blksz && !IsTail(p, b))
    ensures var recv := s.thr[t].pc.recv; var s' := EffectRead(p, s, t, ReadStore(io));
            s'.thr[t].ret == (if recv < 0 then recv else -EIO) && s'.file == s.file
  {
    hide StoreBlock, PieceLen, Need, Cur, IsTail;
  }

  /** A usable download is answered with the piece, cut out of the block, or, if the piece would not lie inside one
      block, with nothing. */
  lemma UsableIsAnswered(p: Params, s: State, t: Tid, io: int)
    requires p.blksz > 0 && EnabledRead(p, s, t, ReadStore(io))
    requires var recv, n, b := s.thr[t].pc.recv, |s.thr[t].pc.data|, Cur(p, s.thr[t]);
             recv >= 0 && n >= Need(p, s.thr[t].role.call) && (n == p.blksz || IsTail(p, b))
    ensures var c := s.thr[t].role.call; var l' := EffectRead(p, s, t, ReadStore(io)).thr[t];
            if PieceLen(p, c) < 0 || Need(p, c) > p.blksz then l'.ret == 0 && l'.buf == []
            else l'.ret == |l'.buf| == PieceLen(p, c) && l'.buf == s.thr[t].pc.data[Skip(p, c)..Skip(p, c) + PieceLen(p, c)]
  {
    hide StoreBlock, PieceLen, Skip, Cur, IsTail;
  }

  /** A reader whose transfer has been given up returns without looking at the following block. */
  lemma LostGoesHome(p: Params, s: State, run: seq<Step>, t: Tid, seg0: seq<bool>)
    requires p.blksz > 0 && Inv(p, s, seg0) && IsRun(p, s, run) && IsReader(s, t) && Met(p, s, run, t, LostTransfer)
    ensures IsReader(After(p, s, run), t)
    ensures !LooksAhead(After(p, s, run).thr[t].pc) && !After(p, s, run).thr[t].pc.Peek?
  {
    hide Inv, IsRun, After, Met;
    MetDooms(p, s, run, t, LostTransfer, seg0);
  }

  // ----- a background download that is given up -----

  /** The background thread is on its way to its end: it only removes its tracker and gives back its slot. */
  ghost predicate GivenUp(s: State, t: Tid) {
    && t in s.thr && s.thr[t].role.Bg?
    && var l := s.thr[t];
    || (HasTs(l) && t in s.mem.ts && s.mem.ts[t].status.Fatal? && !s.mem.ts[t].on)
    || l.pc.BgUntrack? || l.pc.BgPost? || l.pc.Done?
  }

  lemma DownGivenUp(p: Params, s: State, t: Tid, act: DownAct)
    requires p.blksz > 0 && EnabledDown(s, t, act) && GivenUp(s, t)
    ensures GivenUp(EffectDown(p, s, t, act), t) && EffectDown(p, s, t, act).file == s.file
  {
    hide FindTracker, RemoveTracker, WakeAll, WakeCloser, DetachTs, AttachTs, Cur, Size;
  }

  lemma GivenUpStays(p: Params, s: State, t: Tid, step: Step)
    requires p.blksz > 0 && Enabled(p, s, step.t, step.act) && GivenUp(s, t)
    ensures GivenUp(Apply(p, s, step.t, step.act), t)
  {
    if step.t == t && (step.act.Read? || step.act.Down?) {
      hide EffectRead, EffectDown, EnabledDown, Bad, Cur, Lo;
      DownGivenUp(p, s, t, step.act.d);
    } else {
      hide Apply, Enabled;
      RecordStays(p, s, step.t, step.act, t);
      if HasTs(s.thr[t]) && t in s.mem.ts && !s.mem.ts[t].on {
        TransferStays(p, s, step.t, step.act, t);
      }
    }
  }

  lemma BgDooms(p: Params, s: State, t: Tid, step: Step)
    requires p.blksz > 0 && Enabled(p, s, step.t, step.act) && t in s.thr && s.thr[t].role.Bg?
    requires Hits(p, s, t, step, LostTransfer)
    ensures GivenUp(Apply(p, s, step.t, step.act), t)
  {
    hide Bad, Lo, Size, Cur, ReadsFile;
  }

  lemma {:induction false} StaysGivenUp(p: Params, s: State, run: seq<Step>, t: Tid)
    requires p.blksz > 0 && IsRun(p, s, run) && GivenUp(s, t)
    ensures GivenUp(After(p, s, run), t)
    decreases |run|
  {
    hide Apply, Enabled, GivenUp;
    if run == [] {
    } else {
      GivenUpStays(p, s, t, run[0]);
      StaysGivenUp(p, Apply(p, s, run[0].t, run[0].act), run[1..], t);
    }
  }

  /** A background thread whose transfer has been given up does not try again: over any run it is at most still
      taking the transfer down, removing its tracker, giving back its slot, or done. */
  lemma {:induction false} BgGivesUp(p: Params, s: State, run: seq<Step>, t: Tid)
    requires p.blksz > 0 && IsRun(p, s, run) && t in s.thr && s.thr[t].role.Bg? && Met(p, s, run, t, LostTransfer)
    ensures GivenUp(After(p, s, run), t)
    decreases |run|
  {
    hide Apply, Enabled, GivenUp, Hits;
    if run == [] {
    } else {
      var s1 := Apply(p, s, run[0].t, run[0].act);
      if Hits(p, s, t, run[0], LostTransfer) {
        BgDooms(p, s, t, run[0]);
        StaysGivenUp(p, s1, run[1..], t);
      } else {
        StepJobs(p, s, run[0].t, run[0].act);
        BgGivesUp(p, s1, run[1..], t);
      }
    }
  }
}
