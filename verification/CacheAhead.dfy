/** Background downloads do happen: a reader that misses a block hands it to a background thread, and a reader
    that has served a piece fetches the following block ahead, unless there is no need or no slot. */
module CacheAhead {
  import opened Prelude
  import opened Blocks
  import opened CacheState
  import opened CacheInv
  import opened CacheTable
  import opened CacheSteps
  import opened CacheFaults
  import opened CacheRuns
  import opened CacheOutcome

  /** No slot is free, the block is marked, or another thread owns its tracker and downloads it. */
  ghost predicate NoNeed(p: Params, s: State, t: Tid, b: nat)
    requires p.blksz > 0
  {
    s.sem == 0 || Exists(s.file.seg, b) || exists u :: u in s.thr && u != t && Own(p, s.thr[u]) == Some(b)
  }

  /** In some state of the run. */
  ghost predicate Sometime(p: Params, s: State, run: seq<Step>, t: Tid, b: nat)
    requires p.blksz > 0 && IsRun(p, s, run)
    decreases |run|
  {
    NoNeed(p, s, t, b) || (run != [] && Sometime(p, Apply(p, s, run[0].t, run[0].act), run[1..], t, b))
  }

  lemma ListedHasOwner(p: Params, s: State, t: Tid, b: nat)
    requires p.blksz > 0 && MemInv(p, s) && FindTracker(s.mem.tb, b).Some? && t in s.thr && Own(p, s.thr[t]) != Some(b)
    ensures NoNeed(p, s, t, b)
  {
    hide Transfers, Ledger, WakeUps, ListOk;
    FoundIs(s.mem.tb, b);
    assert Owned(p, s, b);
  }

  // ----- the following block -----

  /** The reader has not settled yet whether it fetches the following block. */
  predicate NotYet(pc: Pc) {
    !pc.BackOffAhead? && !pc.EndPiece? && !pc.Done? && (pc.FindAhead? ==> pc.miss)
  }

  /** The piece that started after `got` bytes is still open and nothing has been settled, or it has failed,
      or it is over. */
  predicate StillToFetch(l: Local, got: nat) {
    && l.role.Reader?
    && (|l.role.call.got| > got || l.pc.Done? || (l.pc.EndPiece? && l.ret < 0) || (|l.role.call.got| == got && NotYet(l.pc)))
  }

  /** The trackers the reader finds have other owners. */
  ghost predicate FindsOwned(p: Params, s: State, t: Tid, b: nat)
    requires p.blksz > 0 && t in s.thr
  {
    FindTracker(s.mem.tb, b).Some? && Own(p, s.thr[t]) != Some(b) ==> NoNeed(p, s, t, b)
  }

  lemma ListedHasOwnerInv(p: Params, s: State, t: Tid, b: nat, seg0: seq<bool>)
    requires p.blksz > 0 && Inv(p, s, seg0) && t in s.thr
    ensures FindsOwned(p, s, t, b)
  {
    hide CommonInv, FileInv, Locals, MemInv, NoNeed, Own;
    if FindTracker(s.mem.tb, b).Some? && Own(p, s.thr[t]) != Some(b) {
      ListedHasOwner(p, s, t, b);
    }
  }

  lemma SectionFetches(p: Params, s: State, t: Tid, act: ReadAct, got: nat)
    requires p.blksz > 0 && EnabledRead(p, s, t, act) && ReadSection(act) && StillToFetch(s.thr[t], got)
    requires FindsOwned(p, s, t, Cur(p, s.thr[t]) + 1) && !NoNeed(p, s, t, Cur(p, s.thr[t]) + 1)
    ensures StillToFetch(EffectRead(p, s, t, act).thr[t], got)
  {
    hide FindTracker, AddTracker, RemoveTracker, UnrefTracker, RefTracker, WakeAll, WakeCloser, EarlyCopy, NoNeed, PieceLen, Exists;
  }

  lemma FreeFetches(p: Params, s: State, t: Tid, act: ReadAct, got: nat)
    requires p.blksz > 0 && EnabledRead(p, s, t, act) && !ReadSection(act) && !act.ReadEndPiece? && !act.ReadSpawn?
    requires StillToFetch(s.thr[t], got) && HasNext(p, s.thr[t]) && !NoNeed(p, s, t, Cur(p, s.thr[t]) + 1) && s.sem >= 0
    ensures StillToFetch(EffectRead(p, s, t, act).thr[t], got)
  {
    hide StoreBlock, ReadData, HasNext, Usable, PieceLen, Need, Skip, Exists, Cur;
  }

  lemma SpawnFetches(p: Params, s: State, t: Tid, bg: Tid, got: nat)
    requires p.blksz > 0 && EnabledRead(p, s, t, ReadSpawn(bg)) && StillToFetch(s.thr[t], got)
    ensures var s' := EffectRead(p, s, t, ReadSpawn(bg));
            StillToFetch(s'.thr[t], got) || NoNeed(p, s', t, Cur(p, s.thr[t]) + 1)
  {
    hide Cur, Exists;
    if s.thr[t].pc.ahead {
      assert Own(p, EffectRead(p, s, t, ReadSpawn(bg)).thr[bg]) == Some(Cur(p, s.thr[t]) + 1);
    }
  }

  lemma EndFetches(p: Params, s: State, t: Tid, got: nat)
    requires p.blksz > 0 && EnabledRead(p, s, t, ReadEndPiece) && StillToFetch(s.thr[t], got) && |s.thr[t].role.call.got| >= got
    ensures StillToFetch(EffectRead(p, s, t, ReadEndPiece).thr[t], got)
  {
    hide PieceLen, Cur;
  }

  lemma DownFetches(p: Params, s: State, t: Tid, act: DownAct, got: nat)
    requires p.blksz > 0 && EnabledDown(s, t, act) && StillToFetch(s.thr[t], got)
    ensures StillToFetch(EffectDown(p, s, t, act).thr[t], got)
  {
    hide FindTracker, RemoveTracker, StoreBlock, WakeAll, WakeCloser, DetachTs, AttachTs, Size, Cur;
  }

  /** The reader's position in its request: it only moves on. */
  ghost predicate MovesOn(l: Local, l': Local) {
    l.role.Reader? && l'.role.Reader? && l'.role.call.off == l.role.call.off && |l'.role.call.got| >= |l.role.call.got|
  }

  lemma SectionMovesOn(p: Params, s: State, t: Tid, act: ReadAct)
    requires p.blksz > 0 && EnabledRead(p, s, t, act) && ReadSection(act)
    ensures MovesOn(s.thr[t], EffectRead(p, s, t, act).thr[t])
  {
    hide FindTracker, AddTracker, RemoveTracker, UnrefTracker, RefTracker, WakeAll, WakeCloser, EarlyCopy, PieceLen, Exists, Cur;
  }

  lemma FreeMovesOn(p: Params, s: State, t: Tid, act: ReadAct)
    requires p.blksz > 0 && EnabledRead(p, s, t, act) && !ReadSection(act)
    ensures MovesOn(s.thr[t], EffectRead(p, s, t, act).thr[t])
  {
    hide StoreBlock, ReadData, HasNext, Usable, PieceLen, Need, Skip, Exists, Cur, Child;
  }

  lemma DownMovesOn(p: Params, s: State, t: Tid, act: DownAct)
    requires p.blksz > 0 && EnabledDown(s, t, act) && s.thr[t].role.Reader?
    ensures MovesOn(s.thr[t], EffectDown(p, s, t, act).thr[t])
  {
    hide FindTracker, RemoveTracker, StoreBlock, WakeAll, WakeCloser, DetachTs, AttachTs, Size, Cur, AfterTransfer;
  }

  lemma SamePlace(p: Params, l: Local, l': Local)
    requires p.blksz > 0 && MovesOn(l, l') && |l'.role.call.got| == |l.role.call.got|
    ensures Cur(p, l') == Cur(p, l) && HasNext(p, l') == HasNext(p, l)
  {
  }

  /** Reader `t` began a piece after `got` bytes whose following block is `b`, and has not settled yet. */
  ghost predicate Open(p: Params, l: Local, got: nat, b: nat)
    requires p.blksz > 0
  {
    && StillToFetch(l, got) && |l.role.call.got| >= got
    && (|l.role.call.got| == got ==> Cur(p, l) + 1 == b && HasNext(p, l))
  }

  lemma StaysOpen(p: Params, l: Local, l': Local, got: nat, b: nat)
    requires p.blksz > 0 && Open(p, l, got, b) && MovesOn(l, l') && StillToFetch(l', got)
    ensures Open(p, l', got, b)
  {
    if |l'.role.call.got| == |l.role.call.got| {
      SamePlace(p, l, l');
    }
    hide Cur, HasNext;
  }

  /** A reader whose piece is over stays past it. */
  lemma Later(p: Params, l: Local, l': Local, got: nat, b: nat)
    requires p.blksz > 0 && MovesOn(l, l') && |l.role.call.got| > got
    ensures Open(p, l', got, b)
  {
  }

  lemma OwnStepOpen(p: Params, s: State, t: Tid, act: Act, got: nat, b: nat, seg0: seq<bool>)
    requires p.blksz > 0 && Inv(p, s, seg0) && Enabled(p, s, t, act) && (act.Read? || act.Down?) && t in s.thr
    requires Open(p, s.thr[t], got, b) && !NoNeed(p, s, t, b)
    ensures var s' := Apply(p, s, t, act); t in s'.thr && (Open(p, s'.thr[t], got, b) || NoNeed(p, s', t, b))
  {
    hide Inv, Bad, EffectRead, EffectDown, EnabledRead, EnabledDown, Open, NoNeed, FindsOwned;
    ListedHasOwnerInv(p, s, t, b, seg0);
    SemNat(p, s, seg0);
    if act.Down? {
      DownOpen(p, s, t, act.d, got, b);
    } else {
      ReadOpen(p, s, t, act.r, got, b);
      SameNeed(p, EffectRead(p, s, t, act.r), Apply(p, s, t, act), t, b);
    }
  }

  lemma SameNeed(p: Params, s: State, s': State, t: Tid, b: nat)
    requires p.blksz > 0 && s'.sem == s.sem && s'.file == s.file && s'.thr == s.thr
    ensures NoNeed(p, s', t, b) == NoNeed(p, s, t, b)
  {
  }

  lemma SemNat(p: Params, s: State, seg0: seq<bool>)
    requires p.blksz > 0 && Inv(p, s, seg0)
    ensures s.sem >= 0
  {
    hide LocksW, LocksCf, LocksDl, NetOk, WaiterCount, CloserWakeUp, Handles, Phases, FileInv, MemInv, Locals;
  }

  lemma DownOpen(p: Params, s: State, t: Tid, act: DownAct, got: nat, b: nat)
    requires p.blksz > 0 && EnabledDown(s, t, act) && Open(p, s.thr[t], got, b)
    ensures var s' := EffectDown(p, s, t, act); t in s'.thr && Open(p, s'.thr[t], got, b)
  {
    DownFetches(p, s, t, act, got);
    DownMovesOn(p, s, t, act);
    hide EffectDown, EnabledDown, StillToFetch;
    StaysOpen(p, s.thr[t], EffectDown(p, s, t, act).thr[t], got, b);
  }

  lemma ReadOpen(p: Params, s: State, t: Tid, act: ReadAct, got: nat, b: nat)
    requires p.blksz > 0 && EnabledRead(p, s, t, act) && Open(p, s.thr[t], got, b) && s.sem >= 0
    requires FindsOwned(p, s, t, b) && !NoNeed(p, s, t, b)
    ensures var s' := EffectRead(p, s, t, act); t in s'.thr && (Open(p, s'.thr[t], got, b) || NoNeed(p, s', t, b))
  {
    if ReadSection(act) {
      SectionMovesOn(p, s, t, act);
    } else {
      FreeMovesOn(p, s, t, act);
    }
    hide EffectRead, EnabledRead, StillToFetch, NoNeed, Cur, HasNext;
    var l' := EffectRead(p, s, t, act).thr[t];
    if |s.thr[t].role.call.got| > got {
      Later(p, s.thr[t], l', got, b);
    } else {
      if ReadSection(act) {
        SectionFetches(p, s, t, act, got);
      } else if act.ReadEndPiece? {
        EndFetches(p, s, t, got);
      } else if act.ReadSpawn? {
        SpawnFetches(p, s, t, act.bg, got);
      } else {
        FreeFetches(p, s, t, act, got);
      }
      if StillToFetch(l', got) {
        StaysOpen(p, s.thr[t], l', got, b);
      }
    }
  }

  lemma OpenStep(p: Params, s: State, t: Tid, step: Step, got: nat, b: nat, seg0: seq<bool>)
    requires p.blksz > 0 && Inv(p, s, seg0) && Enabled(p, s, step.t, step.act) && t in s.thr
    requires Open(p, s.thr[t], got, b) && !NoNeed(p, s, t, b)
    ensures var s' := Apply(p, s, step.t, step.act); t in s'.thr && (Open(p, s'.thr[t], got, b) || NoNeed(p, s', t, b))
  {
    IsOpenReader(p, s.thr[t], got, b);
    hide Inv, Enabled, Apply, Open, NoNeed;
    if step.t == t && (step.act.Read? || step.act.Down?) {
      OwnStepOpen(p, s, t, step.act, got, b, seg0);
    } else {
      RecordStays(p, s, step.t, step.act, t);
    }
  }

  lemma IsOpenReader(p: Params, l: Local, got: nat, b: nat)
    requires p.blksz > 0 && Open(p, l, got, b)
    ensures l.role.Reader?
  {
  }

  lemma {:induction false} OpenRun(p: Params, s: State, run: seq<Step>, t: Tid, got: nat, b: nat, seg0: seq<bool>)
    requires p.blksz > 0 && Inv(p, s, seg0) && IsRun(p, s, run) && t in s.thr && Open(p, s.thr[t], got, b)
    ensures t in After(p, s, run).thr && (Open(p, After(p, s, run).thr[t], got, b) || Sometime(p, s, run, t, b))
    decreases |run|
  {
    hide Inv, Apply, Enabled, Open, NoNeed;
    if run == [] {
    } else {
      var s1 := Apply(p, s, run[0].t, run[0].act);
      StepKeeps(p, s, run[0].t, run[0].act, seg0);
      StepJobs(p, s, run[0].t, run[0].act);
      if NoNeed(p, s, t, b) {
        CallKept(p, s1, run[1..], t, seg0);
      } else {
        OpenStep(p, s, t, run[0], got, b, seg0);
        if NoNeed(p, s1, t, b) {
          CallKept(p, s1, run[1..], t, seg0);
        } else {
          OpenRun(p, s1, run[1..], t, got, b, seg0);
        }
      }
    }
  }

  /** A reader that has served a piece from block `c`, the first of the piece being at `Check`, and is done
      with it has not passed over block `c + 1`: at some time no slot was free, the block was marked, or
      another thread, perhaps one it created itself, owned its tracker. */
  lemma FetchesAhead(p: Params, s: State, run: seq<Step>, t: Tid, seg0: seq<bool>)
    requires p.blksz > 0 && Inv(p, s, seg0) && IsRun(p, s, run) && IsReader(s, t) && s.thr[t].pc.Check? && HasNext(p, s.thr[t])
    requires t in After(p, s, run).thr
    requires var l' := After(p, s, run).thr[t];
             l'.role.Reader? && l'.pc.EndPiece? && l'.ret >= 0 && |l'.role.call.got| == |s.thr[t].role.call.got|
    ensures Sometime(p, s, run, t, Cur(p, s.thr[t]) + 1)
  {
    hide Inv, IsRun, After, Sometime, Cur, HasNext;
    OpenRun(p, s, run, t, |s.thr[t].role.call.got|, Cur(p, s.thr[t]) + 1, seg0);
  }

  // ----- the block itself -----

  /** The reader has not turned to downloading or waiting itself. */
  predicate NotItself(pc: Pc) {
    !InDownload(pc) && !pc.Untrack? && !pc.SyncAdd? && !pc.BackOff? && !pc.Asleep? && !pc.Recheck?
  }

  predicate LeavesIt(l: Local, got: nat) {
    l.role.Reader? && (|l.role.call.got| > got || NotItself(l.pc))
  }

  lemma SectionLeaves(p: Params, s: State, t: Tid, act: ReadAct, got: nat)
    requires p.blksz > 0 && EnabledRead(p, s, t, act) && ReadSection(act) && LeavesIt(s.thr[t], got)
    requires FindsOwned(p, s, t, Cur(p, s.thr[t])) && !NoNeed(p, s, t, Cur(p, s.thr[t])) && NotItself(s.thr[t].pc)
    ensures LeavesIt(EffectRead(p, s, t, act).thr[t], got)
  {
    hide FindTracker, AddTracker, DoWake, DoSyncAdd, DoUntrack, RefTracker, WakeCloser, AfterWait, NoNeed, PieceLen, Exists;
  }

  lemma FreeLeaves(p: Params, s: State, t: Tid, act: ReadAct, got: nat)
    requires p.blksz > 0 && EnabledRead(p, s, t, act) && !ReadSection(act)
    requires LeavesIt(s.thr[t], got) && !NoNeed(p, s, t, Cur(p, s.thr[t])) && s.sem >= 0 && NotItself(s.thr[t].pc)
    requires |s.thr[t].role.call.got| >= got
    ensures LeavesIt(EffectRead(p, s, t, act).thr[t], got)
  {
    hide DoStore, ReadData, HasNext, Usable, PieceLen, Need, Skip, Exists, Cur, Child;
  }

  /** As `Open`, for the block of the piece itself. */
  ghost predicate Left(p: Params, l: Local, got: nat, b: nat)
    requires p.blksz > 0
  {
    LeavesIt(l, got) && |l.role.call.got| >= got && (|l.role.call.got| == got ==> Cur(p, l) == b)
  }

  lemma StaysLeft(p: Params, l: Local, l': Local, got: nat, b: nat)
    requires p.blksz > 0 && Left(p, l, got, b) && MovesOn(l, l') && LeavesIt(l', got)
    ensures Left(p, l', got, b)
  {
    if |l'.role.call.got| == |l.role.call.got| {
      SamePlace(p, l, l');
    }
    hide Cur, HasNext;
  }

  lemma PastLeft(p: Params, l: Local, l': Local, got: nat, b: nat)
    requires p.blksz > 0 && MovesOn(l, l') && |l.role.call.got| > got
    ensures Left(p, l', got, b)
  {
  }

  lemma NotPast(l: Local, got: nat)
    requires LeavesIt(l, got) && |l.role.call.got| <= got
    ensures NotItself(l.pc)
  {
  }

  lemma ReadLeft(p: Params, s: State, t: Tid, act: ReadAct, got: nat, b: nat)
    requires p.blksz > 0 && EnabledRead(p, s, t, act) && Left(p, s.thr[t], got, b) && s.sem >= 0
    requires FindsOwned(p, s, t, b) && !NoNeed(p, s, t, b)
    ensures var s' := EffectRead(p, s, t, act); t in s'.thr && Left(p, s'.thr[t], got, b)
  {
    if ReadSection(act) {
      SectionMovesOn(p, s, t, act);
    } else {
      FreeMovesOn(p, s, t, act);
    }
    hide EffectRead, EnabledRead, LeavesIt, NoNeed, Cur, HasNext;
    var l' := EffectRead(p, s, t, act).thr[t];
    if |s.thr[t].role.call.got| > got {
      PastLeft(p, s.thr[t], l', got, b);
    } else {
      assert NotItself(s.thr[t].pc) by {
        NotPast(s.thr[t], got);
      }
      if ReadSection(act) {
        SectionLeaves(p, s, t, act, got);
      } else {
        FreeLeaves(p, s, t, act, got);
      }
      StaysLeft(p, s.thr[t], l', got, b);
    }
  }

  lemma DownLeft(p: Params, s: State, t: Tid, act: DownAct, got: nat, b: nat)
    requires p.blksz > 0 && EnabledDown(s, t, act) && Left(p, s.thr[t], got, b)
    ensures var s' := EffectDown(p, s, t, act); t in s'.thr && Left(p, s'.thr[t], got, b)
  {
    DownMovesOn(p, s, t, act);
    InDownloadActs(s, t, act);
    hide EffectDown, EnabledDown, Cur;
    PastLeft(p, s.thr[t], EffectDown(p, s, t, act).thr[t], got, b);
  }

  /** A reader takes such a step only inside its own download. */
  lemma InDownloadActs(s: State, t: Tid, act: DownAct)
    requires EnabledDown(s, t, act) && s.thr[t].role.Reader?
    ensures InDownload(s.thr[t].pc)
  {
  }

  lemma OwnStepLeft(p: Params, s: State, t: Tid, act: Act, got: nat, b: nat, seg0: seq<bool>)
    requires p.blksz > 0 && Inv(p, s, seg0) && Enabled(p, s, t, act) && (act.Read? || act.Down?) && t in s.thr
    requires Left(p, s.thr[t], got, b) && !NoNeed(p, s, t, b)
    ensures var s' := Apply(p, s, t, act); t in s'.thr && Left(p, s'.thr[t], got, b)
  {
    hide Inv, Bad, EffectRead, EffectDown, EnabledRead, EnabledDown, Left, NoNeed, FindsOwned;
    ListedHasOwnerInv(p, s, t, b, seg0);
    SemNat(p, s, seg0);
    if act.Down? {
      DownLeft(p, s, t, act.d, got, b);
    } else {
      ReadLeft(p, s, t, act.r, got, b);
    }
  }

  lemma {:induction false} LeftRun(p: Params, s: State, run: seq<Step>, t: Tid, got: nat, b: nat, seg0: seq<bool>)
    requires p.blksz > 0 && Inv(p, s, seg0) && IsRun(p, s, run) && IsReader(s, t) && Left(p, s.thr[t], got, b)
    ensures t in After(p, s, run).thr && (Left(p, After(p, s, run).thr[t], got, b) || Sometime(p, s, run, t, b))
    decreases |run|
  {
    hide Inv, Apply, Enabled, Left, NoNeed;
    if run == [] {
    } else {
      var s1 := Apply(p, s, run[0].t, run[0].act);
      StepKeeps(p, s, run[0].t, run[0].act, seg0);
      StepJobs(p, s, run[0].t, run[0].act);
      if NoNeed(p, s, t, b) {
        CallKept(p, s1, run[1..], t, seg0);
      } else {
        if run[0].t == t && (run[0].act.Read? || run[0].act.Down?) {
          OwnStepLeft(p, s, t, run[0].act, got, b, seg0);
        } else {
          RecordStays(p, s, run[0].t, run[0].act, t);
        }
        LeftRun(p, s1, run[1..], t, got, b, seg0);
      }
    }
  }

  /** A reader downloads the block of its piece itself, or waits for it, only if since it began the piece no
      slot was free or another thread owned the block's tracker; else it launches a background thread. */
  lemma LaunchesFirst(p: Params, s: State, run: seq<Step>, t: Tid, seg0: seq<bool>)
    requires p.blksz > 0 && Inv(p, s, seg0) && IsRun(p, s, run) && IsReader(s, t) && s.thr[t].pc.Check?
    requires t in After(p, s, run).thr
    requires var l' := After(p, s, run).thr[t];
             l'.role.Reader? && (InDownload(l'.pc) || l'.pc.Asleep?) && |l'.role.call.got| == |s.thr[t].role.call.got|
    ensures Sometime(p, s, run, t, Cur(p, s.thr[t]))
  {
    hide Inv, IsRun, After, Sometime, Cur;
    LeftRun(p, s, run, t, |s.thr[t].role.call.got|, Cur(p, s.thr[t]), seg0);
  }

  // ----- a tracked block is waited for -----

  /** The reader sleeps as a waiter of the listed tracker of its block, or has copied its piece. */
  ghost predicate Joined(p: Params, s: State, s': State, t: Tid)
    requires p.blksz > 0
  {
    && t in s.thr && t in s'.thr
    && Waits(p, s, s', t)
  }

  ghost predicate Waits(p: Params, s: State, s': State, t: Tid)
    requires p.blksz > 0 && t in s.thr && t in s'.thr
  {
    || (WaitOn(s'.thr[t]).Some?
        && var a := WaitOn(s'.thr[t]).value;
           a in s.mem.tb.list && a in s.mem.tb.heap && s.mem.tb.heap[a].blk == Cur(p, s.thr[t]) && s'.waiters == s.waiters + 1)
    || (s'.thr[t].pc.Peek? && s'.thr[t].role.Reader? && s'.thr[t].ret == PieceLen(p, s'.thr[t].role.call) == |s'.thr[t].buf|)
  }

  /** A reader that finds its block's tracker waits, or copies its piece early. */
  lemma TrackedIsJoined(p: Params, s: State, t: Tid, seg0: seq<bool>)
    requires p.blksz > 0 && Inv(p, s, seg0) && IsReader(s, t) && s.thr[t].pc.Find? && Tracked(s.mem.tb, Cur(p, s.thr[t]))
    ensures Joined(p, s, DoFind(p, s, t), t)
  {
    hide Inv, FindTracker, EarlyCopy, Cur, PieceLen, LocalOk, Tracked;
    FoundIs(s.mem.tb, Cur(p, s.thr[t]));
    var a := FindTracker(s.mem.tb, Cur(p, s.thr[t])).value;
    MoverOk(p, s, t, seg0);
    Unlisted(p, s, a, seg0);
    CopyLength(p, s.mem, s.thr[t].role.call, a);
  }

  /** A reader about to launch or start a download that finds its block's tracker instead does neither: it gives back
      the slot it took, or lets go of `w_lock` and starts over. */
  lemma TrackedIsNotStarted(p: Params, s: State, t: Tid, act: ReadAct)
    requires p.blksz > 0 && EnabledRead(p, s, t, act) && (act.ReadLaunch? || act.ReadSyncAdd?)
    requires Tracked(s.mem.tb, Cur(p, s.thr[t]))
    ensures var s' := EffectRead(p, s, t, act);
            && s'.mem == s.mem && s'.waiters == s.waiters && t in s'.thr
            && s'.thr[t].pc == (if act.ReadLaunch? then BackOff else Check) && (act.ReadSyncAdd? ==> s'.lk.w.None?)
  {
    FoundIs(s.mem.tb, Cur(p, s.thr[t]));
    hide FindTracker, AddTracker, Cur, Tracked;
  }

  lemma CopyLength(p: Params, mem: Mem, c: Call, a: Aid)
    requires p.blksz > 0
    ensures EarlyCopy(p, mem, c, a).Some? ==> |EarlyCopy(p, mem, c, a).value| == PieceLen(p, c)
  {
    hide PieceLen, Skip;
  }

  lemma Unlisted(p: Params, s: State, a: Aid, seg0: seq<bool>)
    requires p.blksz > 0 && Inv(p, s, seg0)
    ensures a in s.mem.tb.list ==> a in s.mem.tb.heap && !At(s.mem.tb, a).unlinked
  {
    hide CommonInv, FileInv, Locals, Transfers, Ledger, Owners, WakeUps;
  }
}
