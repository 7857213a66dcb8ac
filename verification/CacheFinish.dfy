/** No reachable state is a trap: with a network and a disk that do their part, the threads can all be
    brought to their end, without any further call. */
module CacheFinish {
  import opened Prelude
  import opened Blocks
  import opened CacheState
  import opened CacheInv
  import opened CacheTable
  import opened CacheSteps
  import opened CachePieces
  import opened CacheKeep
  import opened CacheClose
  import opened CacheRuns
  import opened CacheProgress
  import opened CacheSettle

  // ----- first, nobody holds dl_lock or transfer_lock -----

  lemma ReadReleases(p: Params, s: State, t: Tid, act: ReadAct)
    requires p.blksz > 0 && EnabledRead(p, s, t, act) && ReadSection(act)
    ensures var s' := EffectRead(p, s, t, act); s'.lk.dl.None? && s'.lk.x == s.lk.x
  {
    hide FindTracker, AddTracker, RemoveTracker, WakeAll, WakeCloser, AfterWait, RefTracker, UnrefTracker;
  }

  lemma DownReleases(p: Params, s: State, t: Tid, act: DownAct)
    requires p.blksz > 0 && EnabledDown(s, t, act) && (act.DownAttach? || act.DownUntrack? || (act.DownDetach? && t in s.mem.ts))
    ensures var s' := EffectDown(p, s, t, act); s'.lk.dl.None? && s'.lk.x == s.lk.x
  {
    hide FindTracker, RemoveTracker, WakeAll, DetachTs, AttachTs, AfterTransfer, WaitersOn;
  }

  lemma CloseReleases(p: Params, s: State, t: Tid, act: CloseAct)
    requires p.blksz > 0 && EnabledClose(p, s, t, act) && (act.ShutDown? || act.CloserWake?)
    ensures var s' := EffectClose(p, s, t, act); s'.lk.dl.None? && s'.lk.x == s.lk.x
  {
    hide ReleaseAll;
  }

  /** Which section the holder of `dl_lock` is in. */
  lemma ReaderSection(p: Params, s: State, t: Tid) returns (act: ReadAct)
    requires p.blksz > 0 && HoldsDl(s, t) && IsReader(s, t) && PcWantsDl(s.thr[t]) && ReaderPc(s.thr[t].pc)
    requires !s.thr[t].pc.Attach? && !s.thr[t].pc.Detach?
    ensures EnabledRead(p, s, t, act) && ReadSection(act)
  {
    var a := Fresh(s.mem.tb.heap.Keys);
    match s.thr[t].pc
    case Find => act := ReadFind;
    case Launch => act := ReadLaunch(a);
    case Register(_) => act := ReadRegister;
    case Asleep(_) => act := ReadWake;
    case SyncAdd => act := ReadSyncAdd(a);
    case Untrack => act := ReadUntrack;
    case FindAhead(_) => act := ReadFindAhead(a);
  }

  lemma ReleasesDl(p: Params, s0: State, s: State, t: Tid) returns (s': State)
    requires p.blksz > 0 && Leads(p, s0, s) && HoldsDl(s, t) && t in s.thr && PcWantsDl(s.thr[t])
    requires (s.thr[t].role.Reader? ==> ReaderPc(s.thr[t].pc)) && (s.thr[t].role.Bg? ==> BgPc(s.thr[t].pc))
    requires (s.thr[t].role.Closer? ==> CloserPcOk(p, s.thr[t].pc)) && (HasTs(s.thr[t]) ==> t in s.mem.ts)
    ensures Leads(p, s0, s') && s'.lk.dl.None? && s'.lk.x == s.lk.x
  {
    hide Leads, EffectRead, EffectDown, EffectClose;
    if s.thr[t].role.Closer? {
      var act := if s.thr[t].pc.CloseList? then ShutDown else CloserWake;
      CloseReleases(p, s, t, act);
      s' := ThenClose(p, s0, s, t, act);
    } else if s.thr[t].pc.Attach? || s.thr[t].pc.Detach? || s.thr[t].pc.BgUntrack? {
      var act := if s.thr[t].pc.Attach? then DownAttach else if s.thr[t].pc.Detach? then DownDetach else DownUntrack;
      DownReleases(p, s, t, act);
      s' := ThenDown(p, s0, s, t, act);
    } else {
      var act := ReaderSection(p, s, t);
      ReadReleases(p, s, t, act);
      s' := ThenRead(p, s0, s, t, act);
    }
  }

  lemma Delivers(p: Params, s0: State, s: State, t: Tid) returns (s': State)
    requires p.blksz > 0 && Leads(p, s0, s) && s.lk.x.XCallback? && s.lk.x.t == t && HoldsDl(s, t)
    ensures Leads(p, s0, s') && s'.lk.dl.None? && s'.lk.x == XHeld(t)
  {
    hide Leads, WaitersOn, Cur, Lo;
    s' := ThenNet(p, s0, s, t, NetDeliver);
  }

  /** What the invariant says about lock holders. */
  ghost predicate HolderFacts(p: Params, s: State) {
    && (s.lk.dl.Some? && !(s.lk.x.XCallback? && s.lk.x.t == s.lk.dl.value) ==>
          var t := s.lk.dl.value;
          && t in s.thr && PcWantsDl(s.thr[t])
          && (s.thr[t].role.Reader? ==> ReaderPc(s.thr[t].pc)) && (s.thr[t].role.Bg? ==> BgPc(s.thr[t].pc))
          && (s.thr[t].role.Closer? ==> CloserPcOk(p, s.thr[t].pc)) && (HasTs(s.thr[t]) ==> t in s.mem.ts))
    && (s.lk.x.XCallback? ==> s.lk.x.t in s.thr)
  }

  lemma HoldersOk(p: Params, s: State, seg0: seq<bool>)
    requires p.blksz > 0 && Inv(p, s, seg0)
    ensures HolderFacts(p, s)
  {
    CallbackRuns(p, s, seg0);
    DlWanted(p, s, seg0);
    hide CommonInv, MemInv, FileInv, LocalOk;
    if s.lk.dl.Some? && !(s.lk.x.XCallback? && s.lk.x.t == s.lk.dl.value) {
      RolePc(p, s.thr[s.lk.dl.value]);
      HasItsTs(p, s, s.lk.dl.value);
    }
  }

  lemma CallbackRuns(p: Params, s: State, seg0: seq<bool>)
    requires p.blksz > 0 && Inv(p, s, seg0)
    ensures s.lk.x.XCallback? ==> s.lk.x.t in s.thr
  {
    hide LocksW, LocksCf, LocksDl, WaiterCount, SlotCount, CloserWakeUp, Handles, Phases, FileInv, MemInv, Locals;
  }

  lemma DlWanted(p: Params, s: State, seg0: seq<bool>)
    requires p.blksz > 0 && Inv(p, s, seg0)
    ensures s.lk.dl.Some? ==> WantsDl(s, s.lk.dl.value)
  {
    hide LocksW, LocksCf, NetOk, WaiterCount, SlotCount, CloserWakeUp, Handles, Phases, FileInv, MemInv, Locals, WantsDl;
  }

  lemma FreesDl(p: Params, s0: State, s: State) returns (s': State)
    requires p.blksz > 0 && Leads(p, s0, s) && HolderFacts(p, s)
    ensures Leads(p, s0, s') && s'.lk.dl.None?
  {
    hide Leads;
    s' := s;
    if s.lk.dl.Some? {
      if s.lk.x.XCallback? && s.lk.x.t == s.lk.dl.value {
        s' := Delivers(p, s0, s, s.lk.x.t);
      } else {
        s' := ReleasesDl(p, s0, s, s.lk.dl.value);
      }
    }
  }

  lemma FreesNet(p: Params, s0: State, s: State) returns (s': State)
    requires p.blksz > 0 && Leads(p, s0, s) && s.lk.dl.None? && (s.lk.x.XCallback? ==> s.lk.x.t in s.thr)
    ensures Leads(p, s0, s') && Calm(s')
  {
    hide Leads;
    s' := s;
    if s.lk.x.XCallback? {
      s' := ThenLock(p, s0, s, s.lk.x.t);
      s' := Delivers(p, s0, s', s.lk.x.t);
    }
    if s'.lk.x.XHeld? {
      s' := ThenNet(p, s0, s', s'.lk.x.t, NetUnlock);
    }
  }

  lemma MakesCalm(p: Params, s0: State, seg0: seq<bool>) returns (s': State)
    requires p.blksz > 0 && Inv(p, s0, seg0)
    ensures Leads(p, s0, s') && Calm(s')
  {
    LeadsSelf(p, s0);
    HoldersOk(p, s0, seg0);
    hide Leads, Inv, HolderFacts;
    s' := FreesDl(p, s0, s0);
    LeadsKeeps(p, s0, s', seg0);
    CallbackRuns(p, s', seg0);
    s' := FreesNet(p, s0, s');
  }

  // ----- then one reader at a time runs to its end -----

  /** Apart from `t`, which goes on with its call, and new background threads, nobody has moved. */
  ghost predicate OthersKept(s: State, s': State, t: Tid) {
    && s'.life == s.life && s'.lk.cf == s.lk.cf && t in s'.thr
    && (forall u :: u in s.thr && u != t ==> u in s'.thr && s'.thr[u] == s.thr[u] && TsOf(s', u) == TsOf(s, u))
    && (forall u :: u in s'.thr && u !in s.thr ==> s'.thr[u].role.Bg?)
  }

  ghost predicate OthersRest(p: Params, s: State, t: Tid)
    requires p.blksz > 0
  {
    forall u :: u in s.thr && u != t ==> Distance(p, s.thr[u], TsOf(s, u)) == 0
  }

  lemma CloserOthers(p: Params, s: State, s1: State, s2: State, t: Tid)
    requires p.blksz > 0 && t in s.thr && OthersKept(s, s1, t) && ComesCloser(p, s1, s2, t)
    ensures OthersKept(s, s2, t)
  {
    OthersSame(s1, s2, t);
    hide Distance, Onward, TsOf;
  }

  lemma LaunchOthers(p: Params, s: State, s1: State, s2: State, t: Tid, c: Tid)
    requires p.blksz > 0 && t in s.thr && OthersKept(s, s1, t) && Launches(p, s1, s2, t, c)
    ensures OthersKept(s, s2, t)
  {
    hide Distance, Child;
  }

  lemma SettledOthers(p: Params, s: State, s1: State, s2: State, t: Tid)
    requires p.blksz > 0 && t in s.thr && OthersKept(s, s1, t) && OthersRest(p, s, t) && Kept(p, s1, s2)
    ensures OthersKept(s, s2, t)
  {
    hide Distance, TsOf;
    forall u | u in s1.thr
      ensures u in s2.thr
      ensures u != t && u in s.thr ==> s2.thr[u] == s.thr[u] && TsOf(s2, u) == TsOf(s, u)
      ensures s1.thr[u].role.Bg? ==> s2.thr[u].role.Bg?
    {
      assert KeptOne(p, s1, s2, u);
    }
  }

  /** How far a reader at rest is from the end of its piece. */
  function Stage(pc: Pc): nat {
    match pc
    case Check => 7
    case Asleep(_) => 6
    case Recheck => 5
    case Peek => 4
    case TryAhead => 3
    case LockAhead => 2
    case BackOffAhead => 1
    case _ => 0
  }

  function Remaining(l: Local): nat {
    if l.role.Reader? then Max(l.role.call.want - |l.role.call.got|, 0) else 0
  }

  /** The call has returned, or has delivered more, or is nearer the end of its piece. */
  predicate Nearer(l: Local, l': Local) {
    && l.role.Reader? && l'.role.Reader?
    && (l'.pc.Done? || Remaining(l') < Remaining(l) || (Remaining(l') == Remaining(l) && Stage(l'.pc) < Stage(l.pc)))
  }

  /** What the invariant says of a reader when everybody is at rest: no tracker is listed, so whoever
      sleeps has been woken and its tracker is gone from the list. */
  ghost predicate RestFacts(p: Params, s: State, t: Tid)
    requires p.blksz > 0
  {
    && IsReader(s, t) && Active(s.thr[t]) && ReaderPc(s.thr[t].pc)
    && s.mem.tb.list == [] && s.mem.ts == map[] && s.lk.w.None? && !s.life.shutting
    && (s.thr[t].pc.Asleep? ==> t in s.sig && At(s.mem.tb, s.thr[t].pc.a).unlinked)
    && LocalOk(p, s.thr[t])
  }

  lemma RestedEmpty(p: Params, s: State, seg0: seq<bool>)
    requires p.blksz > 0 && Inv(p, s, seg0) && Rested(p, s)
    ensures s.mem.tb.list == [] && s.mem.ts == map[] && s.lk.w.None?
  {
    hide LocksCf, LocksDl, NetOk, WaiterCount, SlotCount, CloserWakeUp, Handles, Phases, FileInv, Ledger, WakeUps, TsOk, ReaderOk;
    assert forall t :: t in s.thr ==> LocalOk(p, s.thr[t]);
    assert forall t :: t in s.thr ==> Own(p, s.thr[t]).None? && !HasTs(s.thr[t]) && !HoldsW(s.thr[t]) by {
      forall t | t in s.thr
        ensures Own(p, s.thr[t]).None? && !HasTs(s.thr[t]) && !HoldsW(s.thr[t])
      {
        AtRest(p, s.thr[t], TsOf(s, t));
      }
    }
    hide Distance, LocalOk, Own, HasTs, HoldsW;
    assert forall b: nat :: !Owned(p, s, b);
    assert forall a :: a !in s.mem.tb.list;
    Nothing(s.mem.tb.list);
  }

  lemma AtRest(p: Params, l: Local, u: Option<Ts>)
    requires p.blksz > 0 && LocalOk(p, l) && Distance(p, l, u) == 0
    ensures Own(p, l).None? && !HasTs(l) && !HoldsW(l)
    ensures l.role.Bg? ==> l.pc.Done?
  {
    RolePc(p, l);
    hide LocalOk;
  }

  lemma SleeperGone(p: Params, s: State, t: Tid)
    requires p.blksz > 0 && MemInv(p, s) && IsReader(s, t) && s.thr[t].pc.Asleep? && s.mem.tb.list == []
    ensures t in s.sig && At(s.mem.tb, s.thr[t].pc.a).unlinked
  {
    hide Transfers, Owners, Refs, AttachesOk, PointersOk, Served;
    assert WaitOn(s.thr[t]) == Some(s.thr[t].pc.a);
  }

  lemma GetRestFacts(p: Params, s: State, t: Tid, seg0: seq<bool>)
    requires p.blksz > 0 && Inv(p, s, seg0) && Rested(p, s) && IsReader(s, t) && !s.thr[t].pc.Done?
    ensures RestFacts(p, s, t)
  {
    RestedEmpty(p, s, seg0);
    OneLocal(p, s, t, seg0);
    RolePc(p, s.thr[t]);
    MoverFacts(p, s, t, seg0);
    if s.thr[t].pc.Asleep? {
      SleeperGone(p, s, t);
    }
    hide Inv, LocalOk;
  }

  // ----- rounds of one reader -----

  /** A step that takes the reader from rest to rest. */
  ghost predicate Rolls(p: Params, s: State, s': State, t: Tid)
    requires p.blksz > 0
  {
    && t in s.thr && t in s'.thr && s'.thr == s.thr[t := s'.thr[t]] && s'.mem.ts == s.mem.ts && s'.lk == s.lk && s'.life == s.life
    && Distance(p, s'.thr[t], None) == 0 && Nearer(s.thr[t], s'.thr[t])
  }

  /** Steps after the piece has been answered. */
  predicate Plain(pc: Pc) {
    pc.EndPiece? || pc.BackOffAhead? || pc.TryAhead? || pc.Peek?
  }

  function PlainAct(pc: Pc): ReadAct {
    if pc.EndPiece? then ReadEndPiece else if pc.BackOffAhead? then ReadBackOff else if pc.TryAhead? then ReadTryAhead else ReadPeek
  }

  lemma EndRolls(p: Params, s: State, t: Tid)
    requires p.blksz > 0 && RestFacts(p, s, t) && s.thr[t].pc.EndPiece? && Calm(s)
    ensures EnabledRead(p, s, t, ReadEndPiece) && Rolls(p, s, EffectRead(p, s, t, ReadEndPiece), t)
  {
    PieceInBlock(p, s.thr[t]);
    EndsPiece(p, s.thr[t]);
    hide PieceLen, HasNext, AfterPiece, LocalOk, Nearer;
  }

  lemma EndsPiece(p: Params, l: Local)
    requires p.blksz > 0 && l.role.Reader? && l.pc.EndPiece? && LocalOk(p, l) && PieceLen(p, l.role.call) > 0
    ensures Nearer(l, AfterPiece(p, l)) && Distance(p, AfterPiece(p, l), None) == 0
  {
    hide PieceLen;
  }

  lemma PeekRolls(p: Params, s: State, t: Tid)
    requires p.blksz > 0 && RestFacts(p, s, t) && s.thr[t].pc.Peek? && Calm(s)
    ensures EnabledRead(p, s, t, ReadPeek) && Rolls(p, s, EffectRead(p, s, t, ReadPeek), t)
  {
    hide HasNext, LocalOk, Exists;
  }

  lemma AheadRolls(p: Params, s: State, t: Tid)
    requires p.blksz > 0 && RestFacts(p, s, t) && s.thr[t].pc.TryAhead? && Calm(s)
    ensures EnabledRead(p, s, t, ReadTryAhead) && Rolls(p, s, EffectRead(p, s, t, ReadTryAhead), t)
  {
    hide LocalOk;
  }

  lemma BackRolls(p: Params, s: State, t: Tid)
    requires p.blksz > 0 && RestFacts(p, s, t) && s.thr[t].pc.BackOffAhead? && Calm(s)
    ensures EnabledRead(p, s, t, ReadBackOff) && Rolls(p, s, EffectRead(p, s, t, ReadBackOff), t)
  {
    hide LocalOk;
  }

  lemma PlainRolls(p: Params, s: State, t: Tid)
    requires p.blksz > 0 && RestFacts(p, s, t) && Plain(s.thr[t].pc) && Calm(s)
    ensures EnabledRead(p, s, t, PlainAct(s.thr[t].pc)) && Rolls(p, s, EffectRead(p, s, t, PlainAct(s.thr[t].pc)), t)
  {
    hide EnabledRead, EffectRead, Rolls, LocalOk;
    match s.thr[t].pc
    case EndPiece => EndRolls(p, s, t);
    case Peek => PeekRolls(p, s, t);
    case TryAhead => AheadRolls(p, s, t);
    case BackOffAhead => BackRolls(p, s, t);
  }

  lemma RolledRest(p: Params, s: State, s1: State, s': State, t: Tid)
    requires p.blksz > 0 && Rested(p, s) && Rolls(p, s, s1, t) && Alike(s1, s') && s.mem.ts == map[]
    ensures Rested(p, s') && OthersKept(s, s', t) && Nearer(s.thr[t], s'.thr[t])
  {
    hide Distance, Nearer;
  }

  lemma PlainRound(p: Params, s0: State, s: State, t: Tid) returns (s': State)
    requires p.blksz > 0 && Leads(p, s0, s) && Rested(p, s) && RestFacts(p, s, t) && Plain(s.thr[t].pc)
    ensures Leads(p, s0, s') && RoundEnds(p, s, s', t)
  {
    PlainRolls(p, s, t);
    hide Leads, EffectRead, EnabledRead, Rolls, LocalOk, Nearer, Distance;
    s' := ThenRead(p, s0, s, t, PlainAct(s.thr[t].pc));
    RolledRest(p, s, EffectRead(p, s, t, PlainAct(s.thr[t].pc)), s', t);
  }

  lemma WakeRolls(p: Params, s: State, t: Tid)
    requires p.blksz > 0 && RestFacts(p, s, t) && s.thr[t].pc.Asleep? && Calm(s)
    ensures WantsDl(s, t)
    ensures var s1 := Locked(s, t); EnabledRead(p, s1, t, ReadWake) && Rolls(p, s, EffectRead(p, s1, t, ReadWake), t)
  {
    hide LocalOk, UnrefTracker, WakeCloser;
  }

  lemma WakeRound(p: Params, s0: State, s: State, t: Tid) returns (s': State)
    requires p.blksz > 0 && Leads(p, s0, s) && Rested(p, s) && RestFacts(p, s, t) && s.thr[t].pc.Asleep?
    ensures Leads(p, s0, s') && RoundEnds(p, s, s', t)
  {
    WakeRolls(p, s, t);
    hide Leads, EnabledRead, Rolls, LocalOk, Nearer, WantsDl, Rested;
    var s1 := ThenLock(p, s0, s, t);
    s' := ThenRead(p, s0, s1, t, ReadWake);
    hide EffectRead;
    assert Alike(EffectRead(p, Locked(s, t), t, ReadWake), s') by {
      FaultAsideWake(p, s, s1, t);
    }
    RolledRest(p, s, EffectRead(p, Locked(s, t), t, ReadWake), s', t);
  }

  lemma FaultAsideWake(p: Params, s: State, s1: State, t: Tid)
    requires p.blksz > 0 && Alike(Locked(s, t), s1) && EnabledRead(p, Locked(s, t), t, ReadWake) && EnabledRead(p, s1, t, ReadWake)
    ensures Alike(EffectRead(p, Locked(s, t), t, ReadWake), EffectRead(p, s1, t, ReadWake))
  {
    hide AfterWait, UnrefTracker;
  }

  /** Looking at the bitmap: the piece is served, or the reader goes on with `w_lock`. */
  ghost predicate Looked(p: Params, s: State, s': State, t: Tid, next: Pc)
    requires p.blksz > 0
  {
    && t in s.thr && t in s'.thr && s'.thr == s.thr[t := s'.thr[t]] && s'.mem == s.mem && s'.life == s.life
    && s'.lk.cf == s.lk.cf && s'.lk.dl == s.lk.dl && s'.lk.x == s.lk.x
    && s.thr[t].role.Reader? && s'.thr[t].role.Reader?
    && s'.thr[t].role.call.got == s.thr[t].role.call.got && s'.thr[t].role.call.want == s.thr[t].role.call.want
    && Cur(p, s'.thr[t]) == Cur(p, s.thr[t])
    && ((s'.thr[t].pc.Peek? && s'.lk.w == s.lk.w) || (s'.thr[t].pc == next && s'.lk.w == Some(t)))
  }

  lemma Looks(p: Params, s: State, t: Tid, act: ReadAct)
    requires p.blksz > 0 && IsReader(s, t) && s.lk.w.None?
    requires (act.ReadCheck? && s.thr[t].pc.Check?) || (act.ReadRecheck? && s.thr[t].pc.Recheck?)
    ensures EnabledRead(p, s, t, act) && Looked(p, s, EffectRead(p, s, t, act), t, if act.ReadCheck? then Find else SyncAdd)
  {
    hide ReadData, PieceLen;
  }

  lemma LooksAt(p: Params, s0: State, s: State, t: Tid) returns (s': State)
    requires p.blksz > 0 && Leads(p, s0, s) && IsReader(s, t) && s.lk.w.None?
    requires s.thr[t].pc.Check? || s.thr[t].pc.Recheck?
    ensures Leads(p, s0, s') && Looked(p, s, s', t, if s.thr[t].pc.Check? then Find else SyncAdd)
  {
    hide Leads, EffectRead, EnabledRead, ReadData, PieceLen, Looked;
    var io := Max(PieceLen(p, s.thr[t].role.call), 0);
    var act := if s.thr[t].pc.Check? then ReadCheck(io) else ReadRecheck(io);
    Looks(p, s, t, act);
    s' := ThenRead(p, s0, s, t, act);
    LookedAlike(p, s, EffectRead(p, s, t, act), s', t, if s.thr[t].pc.Check? then Find else SyncAdd);
  }

  lemma LookedAlike(p: Params, s: State, s1: State, s': State, t: Tid, next: Pc)
    requires p.blksz > 0 && Looked(p, s, s1, t, next) && Alike(s1, s')
    ensures Looked(p, s, s', t, next)
  {
    hide Cur;
  }

  /** Reader `t`, which was at rest in `s` like all the others, is on its way; the others have not moved. */
  ghost predicate UnderWay(p: Params, s: State, s1: State, t: Tid)
    requires p.blksz > 0
  {
    && IsReader(s, t) && IsReader(s1, t) && Remaining(s1.thr[t]) == Remaining(s.thr[t])
    && Calm(s1) && OthersKept(s, s1, t) && OthersRest(p, s, t)
  }

  /** Everybody is at rest again, and the reader nearer its end. */
  ghost predicate RoundEnds(p: Params, s: State, s': State, t: Tid)
    requires p.blksz > 0
  {
    t in s.thr && Rested(p, s') && OthersKept(s, s', t) && Nearer(s.thr[t], s'.thr[t])
  }

  lemma StartsOut(p: Params, s: State, t: Tid)
    requires p.blksz > 0 && Rested(p, s) && RestFacts(p, s, t)
    ensures UnderWay(p, s, s, t)
    ensures IsReader(s, t) && s.lk.w.None? && s.mem.tb.list == []
  {
    hide LocalOk, Distance;
  }

  lemma MovesOn(p: Params, s: State, s1: State, s2: State, t: Tid)
    requires p.blksz > 0 && UnderWay(p, s, s1, t) && ComesCloser(p, s1, s2, t)
    ensures UnderWay(p, s, s2, t) && IsReader(s2, t)
  {
    CloserOthers(p, s, s1, s2, t);
    hide Distance, OthersKept, OthersRest;
  }

  lemma LooksOn(p: Params, s: State, s1: State, s2: State, t: Tid, next: Pc)
    requires p.blksz > 0 && UnderWay(p, s, s1, t) && Looked(p, s1, s2, t, next)
    ensures UnderWay(p, s, s2, t) && IsReader(s2, t) && s2.mem == s1.mem && s2.life == s1.life
    ensures s2.thr[t].pc.Peek? || s2.thr[t].pc == next
    ensures Cur(p, s2.thr[t]) == Cur(p, s1.thr[t])
  {
    hide Distance, OthersRest, Cur;
  }

  lemma LaunchesOn(p: Params, s: State, s1: State, s2: State, t: Tid, c: Tid)
    requires p.blksz > 0 && UnderWay(p, s, s1, t) && Launches(p, s1, s2, t, c) && !s1.thr[t].pc.ahead
    ensures UnderWay(p, s, s2, t) && IsReader(s2, t) && s2.thr[t].pc.Check? && s2.lk.w.None?
    ensures c in s2.thr && Own(p, s2.thr[c]) == Some(Cur(p, s2.thr[t]))
  {
    LaunchOthers(p, s, s1, s2, t, c);
    hide Distance, OthersKept, OthersRest;
  }

  /** The reader is in its own download or prefetching, or at rest nearer the end of its piece. */
  predicate OnItsWay(p: Params, l: Local, l1: Local, u1: Option<Ts>)
    requires p.blksz > 0
  {
    || (OwnPc(l1.pc) && Stage(l.pc) > 4)
    || (AheadPc(l1.pc) && Stage(l.pc) > 1)
    || (Stage(l1.pc) < Stage(l.pc) && Distance(p, l1, u1) == 0)
  }

  /** With the others at rest, everybody comes to rest. */
  lemma SettleRound(p: Params, s0: State, s: State, s1: State, t: Tid, seg0: seq<bool>) returns (s': State)
    requires p.blksz > 0 && Inv(p, s0, seg0) && Leads(p, s0, s1) && UnderWay(p, s, s1, t)
    requires OnItsWay(p, s.thr[t], s1.thr[t], TsOf(s1, t))
    ensures Leads(p, s0, s') && RoundEnds(p, s, s', t)
  {
    hide Leads, Inv, Kept, OthersKept, OthersRest;
    s' := ComeToRest(p, s0, s1, seg0);
    SettledOthers(p, s, s1, s', t);
    WhereNow(p, s, s1, s', t);
  }

  lemma WhereNow(p: Params, s: State, s1: State, s': State, t: Tid)
    requires p.blksz > 0 && Kept(p, s1, s') && Rested(p, s') && IsReader(s, t) && IsReader(s1, t) && Remaining(s1.thr[t]) == Remaining(s.thr[t])
    requires OnItsWay(p, s.thr[t], s1.thr[t], TsOf(s1, t))
    ensures t in s'.thr && Nearer(s.thr[t], s'.thr[t])
  {
    assert KeptOne(p, s1, s', t);
    assert Distance(p, s'.thr[t], TsOf(s', t)) == 0;
  }

  lemma NothingFound(tb: Table, b: nat)
    requires tb.list == []
    ensures FindTracker(tb, b).None?
  {
  }

  lemma AheadOn(p: Params, s: State, t: Tid)
    requires p.blksz > 0 && IsReader(s, t) && s.thr[t].pc.LockAhead? && s.lk.w.None? && UnderWay(p, s, s, t)
    ensures EnabledRead(p, s, t, ReadLockAhead)
    ensures var s' := EffectRead(p, s, t, ReadLockAhead); UnderWay(p, s, s', t) && s'.thr[t].pc.FindAhead?
  {
    hide OthersRest, Cur, Exists;
  }

  lemma UnderWayAlike(p: Params, s: State, s1: State, s': State, t: Tid)
    requires p.blksz > 0 && UnderWay(p, s, s1, t) && Alike(s1, s')
    ensures UnderWay(p, s, s', t)
  {
    hide OthersRest;
  }

  lemma AheadRound(p: Params, s0: State, s: State, t: Tid, seg0: seq<bool>) returns (s': State)
    requires p.blksz > 0 && Inv(p, s0, seg0) && Leads(p, s0, s) && IsReader(s, t) && UnderWay(p, s, s, t) && s.lk.w.None?
    requires s.thr[t].pc.LockAhead?
    ensures Leads(p, s0, s') && RoundEnds(p, s, s', t)
  {
    hide Leads, Inv, UnderWay, RoundEnds, EffectRead, EnabledRead;
    AheadOn(p, s, t);
    var s1 := ThenRead(p, s0, s, t, ReadLockAhead);
    UnderWayAlike(p, s, EffectRead(p, s, t, ReadLockAhead), s1, t);
    s' := SettleRound(p, s0, s, s1, t, seg0);
  }

  /** With `w_lock` held and no tracker listed, the reader downloads the block itself. */
  lemma OwnRound(p: Params, s0: State, s: State, s1: State, t: Tid, seg0: seq<bool>) returns (s': State)
    requires p.blksz > 0 && Inv(p, s0, seg0) && Leads(p, s0, s1) && UnderWay(p, s, s1, t) && Calm(s1) && IsReader(s1, t) && IsReader(s, t)
    requires s1.thr[t].pc.SyncAdd? && s1.mem.tb.list == [] && Stage(s.thr[t].pc) > 4
    ensures Leads(p, s0, s') && RoundEnds(p, s, s', t)
  {
    hide Leads, Inv, ComesCloser, UnderWay, RoundEnds, Cur, FindTracker;
    NothingFound(s1.mem.tb, Cur(p, s1.thr[t]));
    var s2 := GoesSyncAdd(p, s0, s1, t);
    MovesOn(p, s, s1, s2, t);
    s' := SettleRound(p, s0, s, s2, t, seg0);
  }

  lemma WayFacts(p: Params, s: State, s1: State, t: Tid)
    requires p.blksz > 0 && UnderWay(p, s, s1, t)
    ensures IsReader(s, t) && IsReader(s1, t) && Calm(s1)
  {
    hide OthersKept, OthersRest;
  }

  lemma RecheckRound(p: Params, s0: State, s: State, t: Tid, seg0: seq<bool>) returns (s': State)
    requires p.blksz > 0 && Inv(p, s0, seg0) && Leads(p, s0, s) && IsReader(s, t) && UnderWay(p, s, s, t) && s.lk.w.None?
    requires s.thr[t].pc.Recheck? && s.mem.tb.list == []
    ensures Leads(p, s0, s') && RoundEnds(p, s, s', t)
  {
    hide Leads, Inv, UnderWay, RoundEnds, Looked;
    var s1 := LooksAt(p, s0, s, t);
    LooksOn(p, s, s, s1, t, SyncAdd);
    WayFacts(p, s, s1, t);
    if s1.thr[t].pc.Peek? {
      s' := SettleRound(p, s0, s, s1, t, seg0);
    } else {
      s' := OwnRound(p, s0, s, s1, t, seg0);
    }
  }

  /** A background thread has just been created for the reader's block: the reader looks again and, finding
      the block still missing and its tracker listed, waits. */
  lemma JoinRound(p: Params, s0: State, s: State, s1: State, t: Tid, c: Tid, seg0: seq<bool>) returns (s': State)
    requires p.blksz > 0 && Inv(p, s0, seg0) && Leads(p, s0, s1) && UnderWay(p, s, s1, t) && IsReader(s, t) && IsReader(s1, t)
    requires s1.thr[t].pc.Check? && s1.lk.w.None? && s.thr[t].pc.Check?
    requires c in s1.thr && Own(p, s1.thr[c]) == Some(Cur(p, s1.thr[t]))
    ensures Leads(p, s0, s') && RoundEnds(p, s, s', t)
  {
    hide Leads, Inv, UnderWay, RoundEnds, Looked, Own, Cur, FindTracker;
    LeadsKeeps(p, s0, s1, seg0);
    OwnerListed(p, s1, c, seg0);
    var s2 := LooksAt(p, s0, s1, t);
    LooksOn(p, s, s1, s2, t, Find);
    if s2.thr[t].pc.Find? {
      s2 := WaitRound(p, s0, s, s2, t, seg0);
    }
    s' := SettleRound(p, s0, s, s2, t, seg0);
  }

  lemma WaitRound(p: Params, s0: State, s: State, s1: State, t: Tid, seg0: seq<bool>) returns (s': State)
    requires p.blksz > 0 && Inv(p, s0, seg0) && Leads(p, s0, s1) && UnderWay(p, s, s1, t) && IsReader(s1, t) && s1.thr[t].pc.Find?
    requires var f := FindTracker(s1.mem.tb, Cur(p, s1.thr[t])); f.Some? && !At(s1.mem.tb, f.value).unlinked
    ensures Leads(p, s0, s') && UnderWay(p, s, s', t) && IsReader(s', t) && (s'.thr[t].pc.Asleep? || s'.thr[t].pc.Peek?)
    ensures Distance(p, s'.thr[t], TsOf(s', t)) == 0
  {
    hide Leads, Inv, UnderWay, ComesCloser, Cur, FindTracker;
    LeadsKeeps(p, s0, s1, seg0);
    MoverFacts(p, s1, t, seg0);
    WayFacts(p, s, s1, t);
    s' := GoesFind(p, s0, s1, t);
    MovesOn(p, s, s1, s', t);
  }

  lemma OwnerListed(p: Params, s: State, c: Tid, seg0: seq<bool>)
    requires p.blksz > 0 && Inv(p, s, seg0) && c in s.thr && Own(p, s.thr[c]).Some?
    ensures var f := FindTracker(s.mem.tb, Own(p, s.thr[c]).value); f.Some? && !At(s.mem.tb, f.value).unlinked
  {
    OwnTracker(p, s, c);
    ListedLinked(p, s, seg0);
    hide Inv, Own, FindTracker;
  }

  lemma ListedLinked(p: Params, s: State, seg0: seq<bool>)
    requires p.blksz > 0 && Inv(p, s, seg0)
    ensures forall a :: a in s.mem.tb.list && a in s.mem.tb.heap ==> !At(s.mem.tb, a).unlinked
  {
    hide CommonInv, FileInv, Locals, Transfers, Ledger, Owners, WakeUps;
  }

  /** With a slot to spare the reader launches a background download and waits for it, else it downloads. */
  lemma MissRound(p: Params, s0: State, s: State, s1: State, t: Tid, seg0: seq<bool>) returns (s': State)
    requires p.blksz > 0 && Inv(p, s0, seg0) && Leads(p, s0, s1) && UnderWay(p, s, s1, t) && IsReader(s, t) && IsReader(s1, t)
    requires s.thr[t].pc.Check? && s1.thr[t].pc.TrySlot? && s1.mem.tb.list == []
    ensures Leads(p, s0, s') && RoundEnds(p, s, s', t)
  {
    hide Leads, Inv, UnderWay, RoundEnds, ComesCloser;
    WayFacts(p, s, s1, t);
    var s2 := GoesTrySlot(p, s0, s1, t);
    MovesOn(p, s, s1, s2, t);
    WayFacts(p, s, s2, t);
    if s2.thr[t].pc.SyncAdd? {
      s' := OwnRound(p, s0, s, s2, t, seg0);
    } else {
      var s3, c := LaunchRound(p, s0, s, s2, t);
      s' := JoinRound(p, s0, s, s3, t, c, seg0);
    }
  }

  lemma LaunchRound(p: Params, s0: State, s: State, s1: State, t: Tid) returns (s': State, c: Tid)
    requires p.blksz > 0 && Leads(p, s0, s1) && UnderWay(p, s, s1, t) && IsReader(s1, t) && s1.thr[t].pc.Launch? && s1.mem.tb.list == []
    ensures Leads(p, s0, s') && UnderWay(p, s, s', t) && IsReader(s', t) && s'.thr[t].pc.Check? && s'.lk.w.None?
    ensures c in s'.thr && Own(p, s'.thr[c]) == Some(Cur(p, s'.thr[t]))
  {
    hide Leads, UnderWay, ComesCloser, Launches, Cur, Own, FindTracker;
    NothingFound(s1.mem.tb, Cur(p, s1.thr[t]));
    WayFacts(p, s, s1, t);
    var s2 := GoesLaunch(p, s0, s1, t);
    MovesOn(p, s, s1, s2, t);
    WayFacts(p, s, s2, t);
    var s3 := GoesRegister(p, s0, s2, t);
    MovesOn(p, s, s2, s3, t);
    WayFacts(p, s, s3, t);
    s', c := GoesSpawn(p, s0, s3, t);
    LaunchesOn(p, s, s3, s', t, c);
  }

  lemma CheckRound(p: Params, s0: State, s: State, t: Tid, seg0: seq<bool>) returns (s': State)
    requires p.blksz > 0 && Inv(p, s0, seg0) && Leads(p, s0, s) && IsReader(s, t) && UnderWay(p, s, s, t) && s.lk.w.None?
    requires s.thr[t].pc.Check? && s.mem.tb.list == [] && !s.life.shutting
    ensures Leads(p, s0, s') && RoundEnds(p, s, s', t)
  {
    hide Leads, Inv, UnderWay, RoundEnds, Looked, ComesCloser, FindTracker, Cur;
    var s1 := LooksAt(p, s0, s, t);
    LooksOn(p, s, s, s1, t, Find);
    WayFacts(p, s, s1, t);
    if s1.thr[t].pc.Peek? {
      s' := SettleRound(p, s0, s, s1, t, seg0);
    } else {
      NothingFound(s1.mem.tb, Cur(p, s1.thr[t]));
      var s2 := GoesFind(p, s0, s1, t);
      MovesOn(p, s, s1, s2, t);
      s' := MissRound(p, s0, s, s2, t, seg0);
    }
  }

  /** One round of a reader, from rest to rest. */
  lemma Round(p: Params, s0: State, s: State, t: Tid, seg0: seq<bool>) returns (s': State)
    requires p.blksz > 0 && Inv(p, s0, seg0) && Leads(p, s0, s) && Rested(p, s) && RestFacts(p, s, t)
    ensures Leads(p, s0, s') && RoundEnds(p, s, s', t)
  {
    StartsOut(p, s, t);
    AwakePc(p, s, t);
    hide Leads, Inv, UnderWay, RoundEnds, Rested, RestFacts;
    match s.thr[t].pc
    case Check => s' := CheckRound(p, s0, s, t, seg0);
    case Asleep(_) => s' := WakeRound(p, s0, s, t);
    case Recheck => s' := RecheckRound(p, s0, s, t, seg0);
    case LockAhead => s' := AheadRound(p, s0, s, t, seg0);
    case _ => s' := PlainRound(p, s0, s, t);
  }

  /** Where a reader at rest can be. */
  lemma AwakePc(p: Params, s: State, t: Tid)
    requires p.blksz > 0 && Rested(p, s) && RestFacts(p, s, t)
    ensures t in s.thr && !s.life.shutting
    ensures var pc := s.thr[t].pc; pc.Check? || pc.Asleep? || pc.Recheck? || pc.LockAhead? || Plain(pc)
  {
    hide LocalOk, EndsWell;
    assert Distance(p, s.thr[t], TsOf(s, t)) == 0;
  }

  /** The reader runs to the end of its call. */
  lemma {:induction false} ReadsOn(p: Params, s0: State, s: State, t: Tid, seg0: seq<bool>) returns (s': State)
    requires p.blksz > 0 && Inv(p, s0, seg0) && Leads(p, s0, s) && Rested(p, s) && IsReader(s, t) && !s.thr[t].pc.Done?
    ensures Leads(p, s0, s') && Rested(p, s') && OthersKept(s, s', t) && s'.thr[t].pc.Done?
    decreases Remaining(s.thr[t]), Stage(s.thr[t].pc)
  {
    hide Leads, Inv, Rested, OthersKept, RestFacts;
    LeadsKeeps(p, s0, s, seg0);
    GetRestFacts(p, s, t, seg0);
    s' := Round(p, s0, s, t, seg0);
    EndFacts(p, s, s', t);
    if !s'.thr[t].pc.Done? {
      var s1 := s';
      s' := ReadsOn(p, s0, s1, t, seg0);
      KeptTwice(s, s1, s', t);
    }
  }

  lemma EndFacts(p: Params, s: State, s': State, t: Tid)
    requires p.blksz > 0 && RoundEnds(p, s, s', t)
    ensures t in s.thr && Rested(p, s') && OthersKept(s, s', t) && t in s'.thr && Nearer(s.thr[t], s'.thr[t])
  {
    hide Rested;
  }

  lemma KeptTwice(s: State, s1: State, s2: State, t: Tid)
    requires t in s.thr && OthersKept(s, s1, t) && OthersKept(s1, s2, t)
    ensures OthersKept(s, s2, t)
  {
    hide TsOf;
  }

  // ----- and all readers do -----

  function Readers(s: State): set<Tid> {
    set t | t in s.thr && s.thr[t].role.Reader? && Active(s.thr[t])
  }

  lemma OneLess(s: State, s': State, t: Tid)
    requires t in Readers(s) && OthersKept(s, s', t) && s'.thr[t].pc.Done?
    ensures |Readers(s')| < |Readers(s)|
  {
    hide TsOf;
    assert Readers(s) == Readers(s') + (Readers(s) - Readers(s'));
    assert t in Readers(s) - Readers(s');
  }

  /** All readers run to their end, and the background threads with them. */
  lemma {:induction false} AllRead(p: Params, s0: State, s: State, seg0: seq<bool>) returns (s': State)
    requires p.blksz > 0 && Inv(p, s0, seg0) && Leads(p, s0, s) && Rested(p, s)
    ensures Leads(p, s0, s') && Rested(p, s') && Readers(s') == {}
    decreases |Readers(s)|
  {
    hide Leads, Inv, Rested, OthersKept;
    s' := s;
    if Readers(s) != {} {
      var t :| t in Readers(s);
      s' := ReadsOn(p, s0, s, t, seg0);
      OneLess(s, s', t);
      s' := AllRead(p, s0, s', seg0);
    }
  }
}
