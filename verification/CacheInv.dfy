/** The invariant of the segment cache machine, one predicate per concern. */
module CacheInv {
  import opened Prelude
  import opened Blocks
  import opened CacheState

  // ----- what each thread's own variables satisfy -----

  /** The answer prepared for the current piece is a prefix of it, and the whole of it if nothing failed. */
  ghost predicate AnswerOk(p: Params, l: Local)
    requires p.blksz > 0 && l.role.Reader?
  {
    var c := l.role.call;
    && (l.ret < 0 ==> !c.clean)
    && (l.ret >= 0 ==> |l.buf| == l.ret <= PieceLen(p, c) && Start(c) + l.ret <= |p.remote|
                       && l.buf == p.remote[Start(c)..Start(c) + l.ret] && (c.clean ==> l.ret == PieceLen(p, c)))
  }

  ghost predicate HasAnswer(pc: Pc) {
    || pc.Untrack? || pc.Peek? || pc.TryAhead? || pc.LockAhead? || pc.FindAhead? || pc.BackOffAhead? || pc.EndPiece?
    || (pc.Register? && pc.ahead) || (pc.Spawn? && pc.ahead)
  }

  ghost predicate LooksAhead(pc: Pc) {
    || pc.TryAhead? || pc.LockAhead? || pc.FindAhead? || pc.BackOffAhead?
    || (pc.Register? && pc.ahead) || (pc.Spawn? && pc.ahead)
  }

  ghost predicate ReaderPc(pc: Pc) {
    match pc
    case BgUntrack | BgPost => false
    case CloseWant | CloseTake(_) | CloseFree | CloseList | CloseWait | CloseDestroy | CloseDone => false
    case _ => true
  }

  ghost predicate BgPc(pc: Pc) {
    InDownload(pc) || pc.BgUntrack? || pc.BgPost? || pc.Done?
  }

  ghost predicate CloserPcOk(p: Params, pc: Pc) {
    match pc
    case CloseWant | CloseFree | CloseList | CloseWait | CloseDestroy | CloseDone => true
    case CloseTake(k) => k <= p.workers
    case _ => false
  }

  ghost predicate Prefix(p: Params, c: Call) {
    && |c.got| <= c.want
    && c.off + |c.got| <= |p.remote|
    && c.got == p.remote[c.off..c.off + |c.got|]
  }

  ghost predicate ReaderOk(p: Params, l: Local)
    requires p.blksz > 0 && l.role.Reader?
  {
    var c := l.role.call;
    && ReaderPc(l.pc)
    && (l.pc.Done? && l.pc.n >= 0 ==> l.pc.n == |c.got| && (l.pc.n == 0 || Prefix(p, c)) && l.pc.n <= c.want)
    && (l.pc.Done? && c.clean ==> l.pc.n == c.want)
    && (!l.pc.Done? ==> Prefix(p, c) && |c.got| < c.want && c.off + c.want <= |p.remote|)
    && (HasAnswer(l.pc) ==> AnswerOk(p, l))
    && (LooksAhead(l.pc) ==> HasNext(p, l))
  }

  ghost predicate LocalOk(p: Params, l: Local)
    requires p.blksz > 0
  {
    && (l.role.Reader? ==> ReaderOk(p, l))
    && (l.role.Bg? ==> BgPc(l.pc) && Lo(p, l.role.blk) < |p.remote|)
    && (l.role.Closer? ==> CloserPcOk(p, l.pc))
    && (l.pc.Store? && l.pc.recv >= 0 ==>
          var b := Cur(p, l);
          && |l.pc.data| == l.pc.recv == Size(p, b) > 0
          && l.pc.data == p.remote[Lo(p, b)..Lo(p, b) + Size(p, b)])
    && (l.pc.Store? && l.pc.recv < 0 ==> l.role.Reader?)
  }

  ghost predicate Locals(p: Params, s: State)
    requires p.blksz > 0
  {
    forall t :: t in s.thr ==> LocalOk(p, s.thr[t])
  }

  // ----- locks -----

  ghost predicate LocksW(s: State) {
    && (forall t :: t in s.thr && HoldsW(s.thr[t]) ==> s.lk.w == Some(t))
    && (s.lk.w.Some? ==> s.lk.w.value in s.thr && HoldsW(s.thr[s.lk.w.value]))
  }

  ghost predicate LocksCf(s: State) {
    && (forall t :: t in s.thr && HoldsCf(s.thr[t]) ==> s.lk.cf == Some(t))
    && (s.lk.cf.Some? ==> s.lk.cf.value in s.thr && HoldsCf(s.thr[s.lk.cf.value]))
  }

  ghost predicate LocksDl(s: State) {
    s.lk.dl.Some? ==> WantsDl(s, s.lk.dl.value)
  }

  ghost predicate NetOk(p: Params, s: State)
    requires p.blksz > 0
  {
    && (s.lk.x.XHeld? ==> s.lk.x.t in s.thr && !s.thr[s.lk.x.t].role.Closer? && s.thr[s.lk.x.t].pc.Transfer?)
    && (s.lk.x.XCallback? ==>
          && s.lk.x.t in s.thr && !s.thr[s.lk.x.t].role.Closer? && s.thr[s.lk.x.t].pc.Transfer? && Feeding(s, s.lk.x.to) && s.lk.x.n > 0
          && |s.mem.ts[s.lk.x.to].data| + s.lk.x.n <= Size(p, Cur(p, s.thr[s.lk.x.to])))
  }

  // ----- counters -----

  ghost predicate WaiterCount(s: State) {
    s.waiters == |Waiting(s.thr)| + |Downloaders(s.thr)|
  }

  ghost predicate SlotCount(p: Params, s: State) {
    && s.sem >= 0
    && (!s.life.gone ==>
          s.sem + |SlotHolders(s.thr)| + (if s.lk.cf.Some? && s.lk.cf.value in s.thr then Taken(p, s.thr[s.lk.cf.value]) else 0) == p.workers)
  }

  // ----- trackers and transfer structures -----

  /** What a thread's transfer structure holds is a prefix of the block it downloads. */
  ghost predicate TsOk(p: Params, l: Local, u: Ts)
    requires p.blksz > 0
  {
    var b := Cur(p, l);
    && |u.data| <= Size(p, b)
    && Lo(p, b) < |p.remote|
    && u.data == p.remote[Lo(p, b)..Lo(p, b) + |u.data|]
  }

  ghost predicate Transfers(p: Params, ts: map<Tid, Ts>, thr: map<Tid, Local>)
    requires p.blksz > 0
  {
    && (forall t :: t in ts ==> t in thr && HasTs(thr[t]) && TsOk(p, thr[t], ts[t]))
    && (forall t :: t in thr && HasTs(thr[t]) ==> t in ts)
  }

  ghost predicate ListOk(tb: Table) {
    && (forall a :: a in tb.list ==> a in tb.heap)
    && NoRepeats(tb.list)
    && (forall a, b :: a in tb.list && b in tb.list && tb.heap[a].blk == tb.heap[b].blk ==> a == b)
    && (forall a :: a in tb.heap ==> (tb.heap[a].unlinked <==> a !in tb.list))
  }

  /** The tracker ledger: one reference for the list, one per sleeping waiter, one per attached transfer. */
  ghost predicate RefsOk(tb: Table, thr: map<Tid, Local>, ts: map<Tid, Ts>, a: Aid)
    requires a in tb.heap
  {
    && tb.heap[a].refs == (if a in tb.list then 1 else 0) + |WaitersOn(thr, a)| + |AttachedTo(ts, a)|
    && tb.heap[a].refs > 0
  }

  ghost predicate Refs(mem: Mem, thr: map<Tid, Local>) {
    forall a :: a in mem.tb.heap ==> RefsOk(mem.tb, thr, mem.ts, a)
  }

  /** A waiter's tracker is allocated and is its block's. */
  ghost predicate WaitsOk(p: Params, tb: Table, thr: map<Tid, Local>)
    requires p.blksz > 0
  {
    forall t :: t in thr && WaitOn(thr[t]).Some? ==>
      WaitOn(thr[t]).value in tb.heap && tb.heap[WaitOn(thr[t]).value].blk == Cur(p, thr[t])
  }

  /** Every transfer is attached to a tracker, which is allocated and is its block's. */
  ghost predicate AttachesOk(p: Params, mem: Mem, thr: map<Tid, Local>)
    requires p.blksz > 0
  {
    forall t :: t in mem.ts && t in thr ==>
      (mem.ts[t].ad.Some? && mem.ts[t].ad.value in mem.tb.heap && mem.tb.heap[mem.ts[t].ad.value].blk == Cur(p, thr[t]))
  }

  /** A listed tracker points only at a transfer structure that is live and attached to it. */
  ghost predicate PointersOk(mem: Mem) {
    forall a :: a in mem.tb.list && a in mem.tb.heap && mem.tb.heap[a].ts.Some? ==>
      mem.tb.heap[a].ts.value in mem.ts && mem.ts[mem.tb.heap[a].ts.value].ad == Some(a)
  }

  ghost predicate Ledger(p: Params, s: State)
    requires p.blksz > 0
  {
    Refs(s.mem, s.thr) && WaitsOk(p, s.mem.tb, s.thr) && AttachesOk(p, s.mem, s.thr) && PointersOk(s.mem)
  }

  /** Every listed tracker has exactly one live owner, and every owner's tracker is listed. */
  ghost predicate Owners(p: Params, s: State)
    requires p.blksz > 0
  {
    && (forall t, u :: t in s.thr && u in s.thr && Own(p, s.thr[t]).Some? && Own(p, s.thr[t]) == Own(p, s.thr[u]) ==> t == u)
    && (forall t :: t in s.thr && Own(p, s.thr[t]).Some? ==> Tracked(s.mem.tb, Own(p, s.thr[t]).value))
    && (forall a :: a in s.mem.tb.list && a in s.mem.tb.heap ==> Owned(p, s, s.mem.tb.heap[a].blk))
  }

  ghost predicate Tracked(tb: Table, b: nat) {
    exists a :: a in tb.list && a in tb.heap && tb.heap[a].blk == b
  }

  ghost predicate Owned(p: Params, s: State, b: nat)
    requires p.blksz > 0
  {
    exists t :: t in s.thr && Own(p, s.thr[t]) == Some(b)
  }

  /** Enough bytes of the block have arrived for this waiter. */
  ghost predicate Served(p: Params, s: State, t: Tid, a: Aid)
    requires p.blksz > 0 && t in s.thr && s.thr[t].role.Reader?
  {
    var n := At(s.mem.tb, a);
    n.ts.Some? && n.ts.value in s.mem.ts && |s.mem.ts[n.ts.value].data| >= Need(p, s.thr[t].role.call)
  }

  /** No lost wake-up: a sleeper that has not been woken waits on a listed tracker, in a cache that
      is not shutting down, for bytes that have not arrived. */
  ghost predicate WakeUps(p: Params, s: State)
    requires p.blksz > 0
  {
    forall t :: t in s.thr && WaitOn(s.thr[t]).Some? && t !in s.sig ==>
      WaitOn(s.thr[t]).value in s.mem.tb.list && !s.life.shutting && !Served(p, s, t, WaitOn(s.thr[t]).value)
  }

  /** The closer sleeps unwoken only while waiters remain. */
  ghost predicate CloserWakeUp(s: State) {
    forall t :: t in ClosersAsleep(s.thr) && t !in s.sig ==> s.waiters > 0
  }

  // ----- bitmap and data file -----

  ghost predicate Coherent(p: Params, seg: seq<bool>, disk: seq<byte>)
    requires p.blksz > 0
  {
    && |seg| == p.segbc
    && |p.remote| <= |disk|
    && forall i: nat :: i < |p.remote| && Exists(seg, BlockOf(p, i)) ==> disk[i] == p.remote[i]
  }

  /** The thread holds `w_lock` after seeing that its block is not marked. */
  ghost predicate SawMissing(l: Local) {
    l.role.Reader? && (l.pc.Find? || l.pc.TrySlot? || l.pc.Launch? || l.pc.BackOff? || l.pc.SyncAdd?)
  }

  /** What the thread has concluded from the bitmap, or from owning a tracker, is still true of it. */
  ghost predicate MissOk(p: Params, seg: seq<bool>, l: Local)
    requires p.blksz > 0
  {
    && (BeforeStore(l) ==> Own(p, l).Some? && !Exists(seg, Own(p, l).value))
    && (SawMissing(l) ==> !Exists(seg, Cur(p, l)))
    && (l.role.Reader? && l.pc.FindAhead? && l.pc.miss ==> !Exists(seg, Cur(p, l) + 1))
  }

  /** The bitmap is the one found at opening plus the blocks stored since, each of them once. */
  ghost predicate LogOk(file: File, seg0: seq<bool>) {
    && |seg0| == |file.seg|
    && (forall b: nat :: b < |file.seg| ==> (file.seg[b] <==> seg0[b] || b in file.log))
    && (forall b: nat :: b in file.log ==> b < |file.seg| && !seg0[b])
    && (forall i, j :: 0 <= i < j < |file.log| ==> file.log[i] != file.log[j])
  }

  ghost predicate Misses(p: Params, seg: seq<bool>, thr: map<Tid, Local>)
    requires p.blksz > 0
  {
    forall t :: t in thr ==> MissOk(p, seg, thr[t])
  }

  // ----- handles and the phases of closing -----

  function ClosersWaiting(thr: map<Tid, Local>): set<Tid> {
    set t | t in thr && thr[t].role.Closer? && thr[t].pc.CloseWant?
  }

  ghost predicate Handles(s: State) {
    && (forall t :: t in s.thr && s.thr[t].role.Reader? && Active(s.thr[t]) ==> s.thr[t].role.call.h in s.life.handles)
    && s.life.opens == |s.life.handles| + |ClosersWaiting(s.thr)|
    && (s.lk.cf.Some? || s.life.gone ==> s.life.opens == 0)
    && (!s.life.linked ==> s.lk.cf.Some? || s.life.gone)
  }

  /** Where the thread holding `cf_lock` is. */
  function ClosePc(s: State): Pc {
    if s.lk.cf.Some? && s.lk.cf.value in s.thr then s.thr[s.lk.cf.value].pc else CloseDone
  }

  ghost predicate Phases(s: State) {
    var pc := ClosePc(s);
    && (s.life.gone ==> s.lk.cf.None? && !s.life.linked && forall t :: t in s.thr ==> !Active(s.thr[t]))
    && (s.life.shutting ==> s.life.gone || pc.CloseWait? || pc.CloseDestroy?)
    && (pc.CloseWait? ==> s.life.shutting)
    && (s.life.gone || pc.CloseFree? || pc.CloseList? || pc.CloseWait? || pc.CloseDestroy? ==> !s.life.linked && s.file.saved.Some?)
    && (s.file.segFreed ==> s.life.gone || pc.CloseList? || pc.CloseWait? || pc.CloseDestroy?)
    && (s.file.saved.Some? ==> s.life.gone || pc.CloseFree? || pc.CloseList? || pc.CloseWait? || pc.CloseDestroy?)
  }

  /** What Meta_write saved is still the bitmap. */
  ghost predicate Saved(s: State) {
    s.file.saved.Some? ==> s.file.saved.value == s.file.seg
  }

  // ----- the whole invariant -----

  /** Locks, counters, handles and the phase of closing. */
  ghost predicate CommonInv(p: Params, s: State)
    requires p.blksz > 0
  {
    && LocksW(s) && LocksCf(s) && LocksDl(s) && NetOk(p, s)
    && WaiterCount(s) && SlotCount(p, s) && CloserWakeUp(s) && Handles(s) && Phases(s)
  }

  /** Trackers, transfers, owners and sleepers. */
  ghost predicate MemInv(p: Params, s: State)
    requires p.blksz > 0
  {
    Transfers(p, s.mem.ts, s.thr) && ListOk(s.mem.tb) && Ledger(p, s) && Owners(p, s) && WakeUps(p, s)
  }

  /** The bitmap, the data file and what threads know about them. */
  ghost predicate FileInv(p: Params, s: State, seg0: seq<bool>)
    requires p.blksz > 0
  {
    && Coherent(p, s.file.seg, s.file.disk) && LogOk(s.file, seg0) && Misses(p, s.file.seg, s.thr) && Saved(s)
  }

  ghost predicate Core(p: Params, s: State, seg0: seq<bool>)
    requires p.blksz > 0
  {
    Locals(p, s) && CommonInv(p, s) && MemInv(p, s) && FileInv(p, s, seg0)
  }

  ghost predicate Inv(p: Params, s: State, seg0: seq<bool>)
    requires p.blksz > 0
  {
    Core(p, s, seg0) && !s.fault
  }
}
