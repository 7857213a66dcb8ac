/** From every reachable state the running downloads can be brought to an end: a schedule of steps, with
    a network and a disk that do their part, after which every lock is free and nobody owns a tracker. */
module CacheSettle {
  import opened Prelude
  import opened Blocks
  import opened CacheState
  import opened CacheInv
  import opened CacheTable
  import opened CacheSteps
  import opened CachePieces
  import opened CacheKeep
  import opened CacheFaults
  import opened CacheRuns
  import opened CacheProgress
  import opened CacheClosing

  // ----- schedules -----

  /** The data file can supply the whole piece, and the network does not give up. */
  predicate GoesWell(p: Params, s: State, t: Tid, act: Act)
    requires p.blksz > 0
  {
    && (act.Read? && (act.r.ReadCheck? || act.r.ReadRecheck?) && IsReader(s, t) ==>
          act.r.io >= 0 && act.r.io >= PieceLen(p, s.thr[t].role.call))
    && (act.Net? && act.n.NetComplete? ==> !act.n.status.Fatal?)
  }

  /** One step of a thread or of the network, in which neither disk nor network fails. */
  ghost predicate OwnAct(p: Params, s: State, t: Tid, act: Act)
    requires p.blksz > 0
  {
    Enabled(p, s, t, act) && !act.Env? && GoesWell(p, s, t, act)
  }

  ghost predicate OwnStep(p: Params, s: State, s': State)
    requires p.blksz > 0
  {
    exists t: Tid, act: Act :: OwnAct(p, s, t, act) && s' == Apply(p, s, t, act)
  }

  ghost predicate StepAt(p: Params, path: seq<State>, i: nat)
    requires p.blksz > 0 && i + 1 < |path|
  {
    OwnStep(p, path[i], path[i + 1])
  }

  ghost predicate Path(p: Params, path: seq<State>)
    requires p.blksz > 0
  {
    path != [] && forall i: nat :: i + 1 < |path| ==> StepAt(p, path, i)
  }

  /** The threads and the network can get from `s` to `s'` by themselves. */
  ghost predicate Leads(p: Params, s: State, s': State)
    requires p.blksz > 0
  {
    exists path: seq<State> :: Path(p, path) && path[0] == s && path[|path| - 1] == s'
  }

  lemma LeadsSelf(p: Params, s: State)
    requires p.blksz > 0
    ensures Leads(p, s, s)
  {
    assert Path(p, [s]) && [s][0] == s;
  }

  /** One more step of a schedule. */
  lemma Then(p: Params, s0: State, s: State, t: Tid, act: Act) returns (s': State)
    requires p.blksz > 0 && Leads(p, s0, s) && Enabled(p, s, t, act) && !act.Env? && GoesWell(p, s, t, act)
    ensures Leads(p, s0, s') && s' == Apply(p, s, t, act)
  {
    hide Enabled, Apply, GoesWell;
    s' := Apply(p, s, t, act);
    assert OwnAct(p, s, t, act);
    assert OwnStep(p, s, s');
    hide OwnStep;
    var path: seq<State> :| Path(p, path) && path[0] == s0 && path[|path| - 1] == s;
    var more := path + [s'];
    forall i: nat | i + 1 < |more|
      ensures StepAt(p, more, i)
    {
      if i + 1 < |path| {
        assert StepAt(p, path, i);
      }
    }
    assert Path(p, more) && more[0] == s0 && more[|more| - 1] == s';
  }

  lemma {:induction false} PathKeeps(p: Params, path: seq<State>, seg0: seq<bool>)
    requires p.blksz > 0 && Path(p, path) && Inv(p, path[0], seg0)
    ensures Inv(p, path[|path| - 1], seg0)
    decreases |path|
  {
    hide Inv, Enabled, Apply;
    if |path| == 1 {
    } else {
      assert StepAt(p, path, 0);
      var t: Tid, act: Act :| OwnAct(p, path[0], t, act) && path[1] == Apply(p, path[0], t, act);
      StepKeeps(p, path[0], t, act, seg0);
      var rest := path[1..];
      forall i: nat | i + 1 < |rest|
        ensures StepAt(p, rest, i)
      {
        assert StepAt(p, path, i + 1);
      }
      PathKeeps(p, rest, seg0);
    }
  }

  /** The invariant holds wherever a schedule leads. */
  lemma LeadsKeeps(p: Params, s0: State, s: State, seg0: seq<bool>)
    requires p.blksz > 0 && Leads(p, s0, s) && Inv(p, s0, seg0)
    ensures Inv(p, s, seg0)
  {
    hide Inv;
    var path: seq<State> :| Path(p, path) && path[0] == s0 && path[|path| - 1] == s;
    PathKeeps(p, path, seg0);
  }

  function Locked(s: State, t: Tid): State {
    s.(lk := s.lk.(dl := Some(t)))
  }

  /** Equal but for the record of faults. */
  predicate Alike(s: State, s': State) {
    s'.(fault := s.fault) == s
  }

  lemma ThenRead(p: Params, s0: State, s: State, t: Tid, act: ReadAct) returns (s': State)
    requires p.blksz > 0 && Leads(p, s0, s) && EnabledRead(p, s, t, act) && GoesWell(p, s, t, Read(act))
    ensures Leads(p, s0, s') && Alike(EffectRead(p, s, t, act), s')
  {
    hide Leads, EffectRead, EnabledRead, Bad, GoesWell;
    s' := Then(p, s0, s, t, Read(act));
  }

  lemma ThenDown(p: Params, s0: State, s: State, t: Tid, act: DownAct) returns (s': State)
    requires p.blksz > 0 && Leads(p, s0, s) && EnabledDown(s, t, act)
    ensures Leads(p, s0, s') && Alike(EffectDown(p, s, t, act), s')
  {
    hide Leads, EffectDown, EnabledDown, Bad;
    s' := Then(p, s0, s, t, Down(act));
  }

  lemma ThenNet(p: Params, s0: State, s: State, t: Tid, act: NetAct) returns (s': State)
    requires p.blksz > 0 && Leads(p, s0, s) && EnabledNet(p, s, t, act) && (act.NetComplete? ==> !act.status.Fatal?)
    ensures Leads(p, s0, s') && Alike(EffectNet(p, s, t, act), s')
  {
    hide Leads, EffectNet, EnabledNet, Bad;
    s' := Then(p, s0, s, t, Net(act));
  }

  lemma ThenClose(p: Params, s0: State, s: State, t: Tid, act: CloseAct) returns (s': State)
    requires p.blksz > 0 && Leads(p, s0, s) && EnabledClose(p, s, t, act)
    ensures Leads(p, s0, s') && Alike(EffectClose(p, s, t, act), s')
  {
    hide Leads, EffectClose, EnabledClose, Bad;
    s' := Then(p, s0, s, t, Close(act));
  }

  lemma ThenLock(p: Params, s0: State, s: State, t: Tid) returns (s': State)
    requires p.blksz > 0 && Leads(p, s0, s) && s.lk.dl.None? && WantsDl(s, t)
    ensures Leads(p, s0, s') && Alike(Locked(s, t), s')
  {
    hide Leads, Bad, WantsDl;
    s' := Then(p, s0, s, t, LockDl);
  }

  // ----- how far a thread is from rest -----

  /** The transfer, once given up, does not have to be started again. */
  predicate EndsWell(p: Params, l: Local, u: Ts)
    requires p.blksz > 0
  {
    !AfterTransfer(p, l, u).Attach?
  }

  /** Steps the thread still needs before it holds no lock and owns no tracker. */
  function Distance(p: Params, l: Local, u: Option<Ts>): nat
    requires p.blksz > 0
  {
    if l.role.Closer? then 0
    else
      match l.pc
      case Find => 13
      case TrySlot => 12
      case Launch | FindAhead(_) => 11
      case BackOff | Register(_) => 10
      case SyncAdd | Spawn(_) => 9
      case Attach => 8
      case AddHandle => if u.Some? && !u.value.on then (if EndsWell(p, l, u.value) then 6 else 11) else 7
      case Transfer => if u.Some? && !u.value.on then (if EndsWell(p, l, u.value) then 5 else 10) else 6
      case Detach => if u.Some? && EndsWell(p, l, u.value) then 4 else 9
      case Store(_, _) => 3
      case Untrack | BgUntrack => 2
      case BgPost => 1
      case _ => 0
  }

  function TsOf(s: State, t: Tid): Option<Ts> {
    if t in s.mem.ts then Some(s.mem.ts[t]) else None
  }

  function Far(p: Params, s: State, t: Tid): nat
    requires p.blksz > 0
  {
    if t in s.thr then Distance(p, s.thr[t], TsOf(s, t)) else 0
  }

  /** Nobody holds `dl_lock` or `transfer_lock`. */
  ghost predicate Calm(s: State) {
    s.lk.dl.None? && s.lk.x.XFree?
  }

  /** Prefetching, from the search for a tracker on. */
  predicate AheadPc(pc: Pc) {
    pc.FindAhead? || (pc.Register? && pc.ahead) || (pc.Spawn? && pc.ahead) || pc.BackOffAhead? || pc.EndPiece?
  }

  /** A reader's own download, and what follows it. */
  predicate OwnPc(pc: Pc) {
    InDownload(pc) || pc.Untrack? || pc.Peek? || pc.EndPiece?
  }

  /** A reader keeps what it has delivered, and its way through prefetching or its own download. */
  predicate Onward(l: Local, l': Local) {
    && (l.role.Reader? ==> l'.role.Reader? && l'.role.call.got == l.role.call.got && l'.role.call.want == l.role.call.want)
    && (!l.role.Reader? ==> l'.role == l.role)
    && (l.role.Reader? && AheadPc(l.pc) ==> AheadPc(l'.pc))
    && (l.role.Reader? && OwnPc(l.pc) ==> OwnPc(l'.pc))
    && (l.role.Reader? ==> !l'.pc.Done?)
  }

  /** Only `t` moves; it comes closer to rest, and leaves other threads and their transfers alone. */
  ghost predicate ComesCloser(p: Params, s: State, s': State, t: Tid)
    requires p.blksz > 0
  {
    && t in s.thr && t in s'.thr && s'.thr == s.thr[t := s'.thr[t]]
    && s'.mem.ts - {t} == s.mem.ts - {t}
    && Calm(s') && s'.life == s.life && s'.lk.cf == s.lk.cf
    && Onward(s.thr[t], s'.thr[t])
    && Distance(p, s'.thr[t], TsOf(s', t)) < Distance(p, s.thr[t], TsOf(s, t))
  }

  /** The same step seen from before the lock was taken, and without the record of faults. */
  lemma Via(p: Params, s: State, s1: State, s2: State, s': State, t: Tid)
    requires p.blksz > 0 && (Alike(Locked(s, t), s1) || s1 == s) && ComesCloser(p, s1, s2, t) && Alike(s2, s')
    ensures ComesCloser(p, s, s', t)
  {
    hide Distance, Onward;
  }

  // ----- a reader on its way to a download -----

  /** A reader that finds no tracker goes on to download; one that finds a listed tracker waits or copies. */
  ghost predicate FoundOrNot(p: Params, s: State, s': State, t: Tid)
    requires p.blksz > 0 && t in s.thr && t in s'.thr
  {
    match FindTracker(s.mem.tb, Cur(p, s.thr[t]))
    case None => s'.thr[t] == s.thr[t].(pc := TrySlot) && s'.mem == s.mem && s'.file == s.file && s'.sem == s.sem
    case Some(a) => !At(s.mem.tb, a).unlinked ==> s'.thr[t].pc.Asleep? || s'.thr[t].pc.Peek?
  }

  lemma FindDown(p: Params, s: State, t: Tid)
    requires p.blksz > 0 && HoldsDl(s, t) && s.lk.x.XFree? && IsReader(s, t) && s.thr[t].pc.Find? && !s.life.shutting
    ensures EnabledRead(p, s, t, ReadFind)
    ensures var s' := EffectRead(p, s, t, ReadFind);
            && ComesCloser(p, s, s', t)
            && FoundOrNot(p, s, s', t)
  {
    hide FindTracker, EarlyCopy, WakeCloser, RefTracker;
  }

  lemma GoesFind(p: Params, s0: State, s: State, t: Tid) returns (s': State)
    requires p.blksz > 0 && Leads(p, s0, s) && Calm(s) && IsReader(s, t) && s.thr[t].pc.Find? && !s.life.shutting
    ensures Leads(p, s0, s') && ComesCloser(p, s, s', t)
    ensures FoundOrNot(p, s, s', t)
  {
    hide Leads, ComesCloser, EffectRead, EnabledRead, FindTracker, AddTracker;
    var s1 := ThenLock(p, s0, s, t);
    FindDown(p, s1, t);
    s' := ThenRead(p, s0, s1, t, ReadFind);
    Via(p, s, s1, EffectRead(p, s1, t, ReadFind), s', t);
  }

  lemma TrySlotDown(p: Params, s: State, t: Tid)
    requires p.blksz > 0 && Calm(s) && IsReader(s, t) && s.thr[t].pc.TrySlot?
    ensures EnabledRead(p, s, t, ReadTrySlot)
    ensures var s' := EffectRead(p, s, t, ReadTrySlot);
            && ComesCloser(p, s, s', t)
            && (s'.thr[t] == s.thr[t].(pc := if s.sem > 0 then Launch else SyncAdd) && s'.mem == s.mem && s'.file == s.file)
  {
  }

  lemma GoesTrySlot(p: Params, s0: State, s: State, t: Tid) returns (s': State)
    requires p.blksz > 0 && Leads(p, s0, s) && Calm(s) && IsReader(s, t) && s.thr[t].pc.TrySlot?
    ensures Leads(p, s0, s') && ComesCloser(p, s, s', t)
    ensures s'.thr[t] == s.thr[t].(pc := if s.sem > 0 then Launch else SyncAdd) && s'.mem == s.mem && s'.file == s.file
  {
    hide Leads, ComesCloser, EffectRead, EnabledRead;
    TrySlotDown(p, s, t);
    s' := ThenRead(p, s0, s, t, ReadTrySlot);
    Via(p, s, s, EffectRead(p, s, t, ReadTrySlot), s', t);
  }

  lemma LaunchDown(p: Params, s: State, t: Tid, a: Aid)
    requires p.blksz > 0 && HoldsDl(s, t) && s.lk.x.XFree? && IsReader(s, t) && s.thr[t].pc.Launch? && a !in s.mem.tb.heap
    ensures EnabledRead(p, s, t, ReadLaunch(a))
    ensures var s' := EffectRead(p, s, t, ReadLaunch(a));
            && ComesCloser(p, s, s', t)
            && (FindTracker(s.mem.tb, Cur(p, s.thr[t])).None? ==> s'.thr[t] == s.thr[t].(pc := Register(false)) && s'.file == s.file)
  {
    hide FindTracker, AddTracker;
  }

  lemma GoesLaunch(p: Params, s0: State, s: State, t: Tid) returns (s': State)
    requires p.blksz > 0 && Leads(p, s0, s) && Calm(s) && IsReader(s, t) && s.thr[t].pc.Launch?
    ensures Leads(p, s0, s') && ComesCloser(p, s, s', t)
    ensures FindTracker(s.mem.tb, Cur(p, s.thr[t])).None? ==> s'.thr[t] == s.thr[t].(pc := Register(false)) && s'.file == s.file
  {
    hide Leads, ComesCloser, EffectRead, EnabledRead, FindTracker, AddTracker;
    var a := Fresh(s.mem.tb.heap.Keys);
    var s1 := ThenLock(p, s0, s, t);
    LaunchDown(p, s1, t, a);
    s' := ThenRead(p, s0, s1, t, ReadLaunch(a));
    Via(p, s, s1, EffectRead(p, s1, t, ReadLaunch(a)), s', t);
  }

  lemma BackOffDown(p: Params, s: State, t: Tid)
    requires p.blksz > 0 && Calm(s) && IsReader(s, t) && s.thr[t].pc.BackOff?
    ensures EnabledRead(p, s, t, ReadBackOff)
    ensures var s' := EffectRead(p, s, t, ReadBackOff);
            && ComesCloser(p, s, s', t)
  {
  }

  lemma GoesBackOff(p: Params, s0: State, s: State, t: Tid) returns (s': State)
    requires p.blksz > 0 && Leads(p, s0, s) && Calm(s) && IsReader(s, t) && s.thr[t].pc.BackOff?
    ensures Leads(p, s0, s') && ComesCloser(p, s, s', t)
  {
    hide Leads, ComesCloser, EffectRead, EnabledRead;
    BackOffDown(p, s, t);
    s' := ThenRead(p, s0, s, t, ReadBackOff);
    Via(p, s, s, EffectRead(p, s, t, ReadBackOff), s', t);
  }

  lemma RegisterDown(p: Params, s: State, t: Tid)
    requires p.blksz > 0 && HoldsDl(s, t) && s.lk.x.XFree? && IsReader(s, t) && s.thr[t].pc.Register?
    ensures EnabledRead(p, s, t, ReadRegister)
    ensures var s' := EffectRead(p, s, t, ReadRegister);
            && ComesCloser(p, s, s', t)
            && (s'.thr[t] == s.thr[t].(pc := Spawn(s.thr[t].pc.ahead)) && s'.mem == s.mem && s'.file == s.file)
  {
  }

  lemma GoesRegister(p: Params, s0: State, s: State, t: Tid) returns (s': State)
    requires p.blksz > 0 && Leads(p, s0, s) && Calm(s) && IsReader(s, t) && s.thr[t].pc.Register?
    ensures Leads(p, s0, s') && ComesCloser(p, s, s', t)
    ensures s'.thr[t] == s.thr[t].(pc := Spawn(s.thr[t].pc.ahead)) && s'.mem == s.mem && s'.file == s.file
  {
    hide Leads, ComesCloser, EffectRead, EnabledRead;
    var s1 := ThenLock(p, s0, s, t);
    RegisterDown(p, s1, t);
    s' := ThenRead(p, s0, s1, t, ReadRegister);
    Via(p, s, s1, EffectRead(p, s1, t, ReadRegister), s', t);
  }

  lemma SyncAddDown(p: Params, s: State, t: Tid, a: Aid)
    requires p.blksz > 0 && HoldsDl(s, t) && s.lk.x.XFree? && IsReader(s, t) && s.thr[t].pc.SyncAdd? && a !in s.mem.tb.heap
    ensures EnabledRead(p, s, t, ReadSyncAdd(a))
    ensures var s' := EffectRead(p, s, t, ReadSyncAdd(a));
            && ComesCloser(p, s, s', t)
            && (FindTracker(s.mem.tb, Cur(p, s.thr[t])).None? ==> s'.thr[t] == s.thr[t].(pc := Attach))
  {
    hide FindTracker, AddTracker;
  }

  lemma GoesSyncAdd(p: Params, s0: State, s: State, t: Tid) returns (s': State)
    requires p.blksz > 0 && Leads(p, s0, s) && Calm(s) && IsReader(s, t) && s.thr[t].pc.SyncAdd?
    ensures Leads(p, s0, s') && ComesCloser(p, s, s', t)
    ensures FindTracker(s.mem.tb, Cur(p, s.thr[t])).None? ==> s'.thr[t] == s.thr[t].(pc := Attach)
  {
    hide Leads, ComesCloser, EffectRead, EnabledRead, FindTracker, AddTracker;
    var a := Fresh(s.mem.tb.heap.Keys);
    var s1 := ThenLock(p, s0, s, t);
    SyncAddDown(p, s1, t, a);
    s' := ThenRead(p, s0, s1, t, ReadSyncAdd(a));
    Via(p, s, s1, EffectRead(p, s1, t, ReadSyncAdd(a)), s', t);
  }

  lemma FindAheadDown(p: Params, s: State, t: Tid, a: Aid)
    requires p.blksz > 0 && HoldsDl(s, t) && s.lk.x.XFree? && IsReader(s, t) && s.thr[t].pc.FindAhead? && a !in s.mem.tb.heap
    ensures EnabledRead(p, s, t, ReadFindAhead(a))
    ensures var s' := EffectRead(p, s, t, ReadFindAhead(a));
            && ComesCloser(p, s, s', t)
  {
    hide FindTracker, AddTracker;
  }

  lemma GoesFindAhead(p: Params, s0: State, s: State, t: Tid) returns (s': State)
    requires p.blksz > 0 && Leads(p, s0, s) && Calm(s) && IsReader(s, t) && s.thr[t].pc.FindAhead?
    ensures Leads(p, s0, s') && ComesCloser(p, s, s', t)
  {
    hide Leads, ComesCloser, EffectRead, EnabledRead, FindTracker, AddTracker;
    var a := Fresh(s.mem.tb.heap.Keys);
    var s1 := ThenLock(p, s0, s, t);
    FindAheadDown(p, s1, t, a);
    s' := ThenRead(p, s0, s1, t, ReadFindAhead(a));
    Via(p, s, s1, EffectRead(p, s1, t, ReadFindAhead(a)), s', t);
  }

  lemma UntrackDown(p: Params, s: State, t: Tid)
    requires p.blksz > 0 && HoldsDl(s, t) && s.lk.x.XFree? && IsReader(s, t) && s.thr[t].pc.Untrack?
    ensures EnabledRead(p, s, t, ReadUntrack)
    ensures var s' := EffectRead(p, s, t, ReadUntrack);
            && ComesCloser(p, s, s', t)
  {
    hide FindTracker, RemoveTracker, WaitersOn, WakeCloser;
  }

  lemma GoesUntrack(p: Params, s0: State, s: State, t: Tid) returns (s': State)
    requires p.blksz > 0 && Leads(p, s0, s) && Calm(s) && IsReader(s, t) && s.thr[t].pc.Untrack?
    ensures Leads(p, s0, s') && ComesCloser(p, s, s', t)
  {
    hide Leads, ComesCloser, EffectRead, EnabledRead;
    var s1 := ThenLock(p, s0, s, t);
    UntrackDown(p, s1, t);
    s' := ThenRead(p, s0, s1, t, ReadUntrack);
    Via(p, s, s1, EffectRead(p, s1, t, ReadUntrack), s', t);
  }

  // ----- a download -----

  lemma AttachDown(p: Params, s: State, t: Tid)
    requires p.blksz > 0 && HoldsDl(s, t) && s.lk.x.XFree? && t in s.thr && !s.thr[t].role.Closer? && s.thr[t].pc.Attach?
    ensures EnabledDown(s, t, DownAttach)
    ensures var s' := EffectDown(p, s, t, DownAttach);
            && ComesCloser(p, s, s', t)
  {
    hide FindTracker, AttachTs, WaitersOn;
  }

  lemma GoesAttach(p: Params, s0: State, s: State, t: Tid) returns (s': State)
    requires p.blksz > 0 && Leads(p, s0, s) && Calm(s) && t in s.thr && !s.thr[t].role.Closer? && s.thr[t].pc.Attach?
    ensures Leads(p, s0, s') && ComesCloser(p, s, s', t)
  {
    hide Leads, ComesCloser, EffectDown, EnabledDown;
    var s1 := ThenLock(p, s0, s, t);
    AttachDown(p, s1, t);
    s' := ThenDown(p, s0, s1, t, DownAttach);
    Via(p, s, s1, EffectDown(p, s1, t, DownAttach), s', t);
  }

  lemma AddHandleDown(p: Params, s: State, t: Tid)
    requires p.blksz > 0 && Calm(s) && t in s.thr && !s.thr[t].role.Closer? && s.thr[t].pc.AddHandle? && t in s.mem.ts
    ensures EnabledDown(s, t, DownAddHandle)
    ensures var s' := EffectDown(p, s, t, DownAddHandle);
            && ComesCloser(p, s, s', t)
  {
  }

  lemma GoesAddHandle(p: Params, s0: State, s: State, t: Tid) returns (s': State)
    requires p.blksz > 0 && Leads(p, s0, s) && Calm(s) && t in s.thr && !s.thr[t].role.Closer? && s.thr[t].pc.AddHandle? && t in s.mem.ts
    ensures Leads(p, s0, s') && ComesCloser(p, s, s', t)
  {
    hide Leads, ComesCloser, EffectDown, EnabledDown;
    AddHandleDown(p, s, t);
    s' := ThenDown(p, s0, s, t, DownAddHandle);
    Via(p, s, s, EffectDown(p, s, t, DownAddHandle), s', t);
  }

  lemma LeaveDown(p: Params, s: State, t: Tid)
    requires p.blksz > 0 && Calm(s) && t in s.thr && !s.thr[t].role.Closer? && s.thr[t].pc.Transfer? && t in s.mem.ts && !s.mem.ts[t].on
    ensures EnabledDown(s, t, DownLeave)
    ensures var s' := EffectDown(p, s, t, DownLeave);
            && ComesCloser(p, s, s', t)
  {
  }

  lemma GoesLeave(p: Params, s0: State, s: State, t: Tid) returns (s': State)
    requires p.blksz > 0 && Leads(p, s0, s) && Calm(s) && t in s.thr && !s.thr[t].role.Closer?
    requires s.thr[t].pc.Transfer? && t in s.mem.ts && !s.mem.ts[t].on
    ensures Leads(p, s0, s') && ComesCloser(p, s, s', t)
  {
    hide Leads, ComesCloser, EffectDown, EnabledDown;
    LeaveDown(p, s, t);
    s' := ThenDown(p, s0, s, t, DownLeave);
    Via(p, s, s, EffectDown(p, s, t, DownLeave), s', t);
  }

  lemma DetachDown(p: Params, s: State, t: Tid)
    requires p.blksz > 0 && HoldsDl(s, t) && s.lk.x.XFree? && t in s.thr && !s.thr[t].role.Closer? && s.thr[t].pc.Detach? && t in s.mem.ts
    ensures EnabledDown(s, t, DownDetach)
    ensures var s' := EffectDown(p, s, t, DownDetach);
            && ComesCloser(p, s, s', t)
  {
    hide DetachTs;
  }

  lemma GoesDetach(p: Params, s0: State, s: State, t: Tid) returns (s': State)
    requires p.blksz > 0 && Leads(p, s0, s) && Calm(s) && t in s.thr && !s.thr[t].role.Closer? && s.thr[t].pc.Detach? && t in s.mem.ts
    ensures Leads(p, s0, s') && ComesCloser(p, s, s', t)
  {
    hide Leads, ComesCloser, EffectDown, EnabledDown;
    var s1 := ThenLock(p, s0, s, t);
    DetachDown(p, s1, t);
    s' := ThenDown(p, s0, s1, t, DownDetach);
    Via(p, s, s1, EffectDown(p, s1, t, DownDetach), s', t);
  }

  lemma BgUntrackDown(p: Params, s: State, t: Tid)
    requires p.blksz > 0 && HoldsDl(s, t) && s.lk.x.XFree? && t in s.thr && !s.thr[t].role.Closer? && s.thr[t].pc.BgUntrack? && s.thr[t].role.Bg?
    ensures EnabledDown(s, t, DownUntrack)
    ensures var s' := EffectDown(p, s, t, DownUntrack);
            && ComesCloser(p, s, s', t)
  {
    hide FindTracker, RemoveTracker, WaitersOn, WakeCloser;
  }

  lemma GoesBgUntrack(p: Params, s0: State, s: State, t: Tid) returns (s': State)
    requires p.blksz > 0 && Leads(p, s0, s) && Calm(s) && t in s.thr && !s.thr[t].role.Closer? && s.thr[t].pc.BgUntrack? && s.thr[t].role.Bg?
    ensures Leads(p, s0, s') && ComesCloser(p, s, s', t)
  {
    hide Leads, ComesCloser, EffectDown, EnabledDown;
    var s1 := ThenLock(p, s0, s, t);
    BgUntrackDown(p, s1, t);
    s' := ThenDown(p, s0, s1, t, DownUntrack);
    Via(p, s, s1, EffectDown(p, s1, t, DownUntrack), s', t);
  }

  lemma BgPostDown(p: Params, s: State, t: Tid)
    requires p.blksz > 0 && Calm(s) && t in s.thr && !s.thr[t].role.Closer? && s.thr[t].pc.BgPost? && s.thr[t].role.Bg?
    ensures EnabledDown(s, t, DownPost)
    ensures var s' := EffectDown(p, s, t, DownPost);
            && ComesCloser(p, s, s', t)
  {
  }

  lemma GoesBgPost(p: Params, s0: State, s: State, t: Tid) returns (s': State)
    requires p.blksz > 0 && Leads(p, s0, s) && Calm(s) && t in s.thr && !s.thr[t].role.Closer? && s.thr[t].pc.BgPost? && s.thr[t].role.Bg?
    ensures Leads(p, s0, s') && ComesCloser(p, s, s', t)
  {
    hide Leads, ComesCloser, EffectDown, EnabledDown;
    BgPostDown(p, s, t);
    s' := ThenDown(p, s0, s, t, DownPost);
    Via(p, s, s, EffectDown(p, s, t, DownPost), s', t);
  }

  lemma ReadStoreDown(p: Params, s: State, t: Tid)
    requires p.blksz > 0 && Calm(s) && IsReader(s, t) && s.thr[t].pc.Store? && s.lk.w.None?
    ensures EnabledRead(p, s, t, ReadStore(|s.thr[t].pc.data|)) && ComesCloser(p, s, EffectRead(p, s, t, ReadStore(|s.thr[t].pc.data|)), t)
  {
    hide StoreBlock, Usable;
  }

  lemma DownStoreDown(p: Params, s: State, t: Tid)
    requires p.blksz > 0 && Calm(s) && t in s.thr && s.thr[t].role.Bg? && s.thr[t].pc.Store? && s.lk.w.None?
    ensures EnabledDown(s, t, DownStore(|s.thr[t].pc.data|)) && ComesCloser(p, s, EffectDown(p, s, t, DownStore(|s.thr[t].pc.data|)), t)
  {
    hide StoreBlock, Storable;
  }

  lemma GoesStore(p: Params, s0: State, s: State, t: Tid) returns (s': State)
    requires p.blksz > 0 && Leads(p, s0, s) && Calm(s) && t in s.thr && !s.thr[t].role.Closer? && s.thr[t].pc.Store? && s.lk.w.None?
    ensures Leads(p, s0, s') && ComesCloser(p, s, s', t)
  {
    hide Leads, ComesCloser, EffectRead, EnabledRead, EffectDown, EnabledDown;
    var io := |s.thr[t].pc.data|;
    if s.thr[t].role.Reader? {
      ReadStoreDown(p, s, t);
      s' := ThenRead(p, s0, s, t, ReadStore(io));
      Via(p, s, s, EffectRead(p, s, t, ReadStore(io)), s', t);
    } else {
      DownStoreDown(p, s, t);
      s' := ThenDown(p, s0, s, t, DownStore(io));
      Via(p, s, s, EffectDown(p, s, t, DownStore(io)), s', t);
    }
  }

  // ----- the network brings a transfer to its end -----

  /** Thread `t` runs the network for its own transfer; nothing else moves. */
  ghost predicate Running(s: State, s': State, t: Tid, x: XLock) {
    && t in s.thr && s.thr[t].pc.Transfer? && !s.thr[t].role.Closer? && t in s'.mem.ts && s'.mem.ts[t].on
    && s'.thr == s.thr && s'.life == s.life && s'.lk == s.lk.(x := x, dl := None) && s'.mem.ts - {t} == s.mem.ts - {t}
  }

  lemma StartsNet(p: Params, s0: State, s: State, t: Tid) returns (s': State)
    requires p.blksz > 0 && Leads(p, s0, s) && Calm(s) && Running(s, s, t, XFree)
    ensures Leads(p, s0, s') && Running(s, s', t, XHeld(t)) && s'.mem == s.mem
  {
    hide Leads;
    s' := ThenNet(p, s0, s, t, NetLock);
  }

  /** The rest of the block arrives. */
  lemma Feeds(p: Params, s0: State, s: State, s1: State, t: Tid) returns (s': State)
    requires p.blksz > 0 && Leads(p, s0, s1) && Running(s, s1, t, XHeld(t))
    requires |s1.mem.ts[t].data| < Size(p, Cur(p, s.thr[t]))
    ensures Leads(p, s0, s') && Running(s, s', t, XHeld(t)) && |s'.mem.ts[t].data| == Size(p, Cur(p, s.thr[t]))
  {
    hide Leads;
    var n: nat := Size(p, Cur(p, s.thr[t])) - |s1.mem.ts[t].data|;
    var s2 := ThenNet(p, s0, s1, t, NetCall(t, n));
    var s3 := ThenLock(p, s0, s2, t);
    s' := ThenNet(p, s0, s3, t, NetDeliver);
    Delivered(p, s1, s2, s3, s', t, n);
    hide EffectNet;
    Composes(s, s1, s', t);
  }

  lemma Delivered(p: Params, s1: State, s2: State, s3: State, s': State, t: Tid, n: nat)
    requires p.blksz > 0 && EnabledNet(p, s1, t, NetCall(t, n)) && Alike(EffectNet(p, s1, t, NetCall(t, n)), s2)
    requires Running(s1, s1, t, XHeld(t)) && |s1.mem.ts[t].data| + n == Size(p, Cur(p, s1.thr[t]))
    requires Alike(Locked(s2, t), s3) && EnabledNet(p, s3, t, NetDeliver) && Alike(EffectNet(p, s3, t, NetDeliver), s')
    ensures Running(s1, s', t, XHeld(t)) && |s'.mem.ts[t].data| == Size(p, Cur(p, s1.thr[t]))
  {
    hide WaitersOn, Cur;
  }

  lemma Composes(s: State, s1: State, s2: State, t: Tid)
    requires Running(s, s1, t, XHeld(t)) && Running(s1, s2, t, XHeld(t))
    ensures Running(s, s2, t, XHeld(t))
  {
  }

  /** The transfer succeeds, and the network is left alone. */
  lemma EndsNet(p: Params, s0: State, s: State, s1: State, t: Tid) returns (s': State)
    requires p.blksz > 0 && Leads(p, s0, s1) && Calm(s) && Running(s, s1, t, XHeld(t))
    requires t in s.mem.ts && s.mem.ts[t].on && |s1.mem.ts[t].data| == Size(p, Cur(p, s.thr[t]))
    ensures Leads(p, s0, s') && ComesCloser(p, s, s', t)
  {
    hide Leads;
    var s2 := ThenNet(p, s0, s1, t, NetComplete(t, Ok));
    s' := ThenNet(p, s0, s2, t, NetUnlock);
  }

  lemma GoesTransfer(p: Params, s0: State, s: State, t: Tid) returns (s': State)
    requires p.blksz > 0 && Leads(p, s0, s) && Calm(s) && Running(s, s, t, XFree)
    requires |s.mem.ts[t].data| <= Size(p, Cur(p, s.thr[t]))
    ensures Leads(p, s0, s') && ComesCloser(p, s, s', t)
  {
    hide Leads, ComesCloser;
    var s1 := StartsNet(p, s0, s, t);
    if |s1.mem.ts[t].data| < Size(p, Cur(p, s.thr[t])) {
      s1 := Feeds(p, s0, s, s1, t);
    }
    s' := EndsNet(p, s0, s, s1, t);
  }

  // ----- a launcher hands over -----

  /** `t` creates the background thread `c` and is at rest; together they are closer to rest. */
  ghost predicate Launches(p: Params, s: State, s': State, t: Tid, c: Tid)
    requires p.blksz > 0
  {
    && t in s.thr && c !in s.thr && t in s'.thr && c in s'.thr && s'.thr[c].role.Bg? && s.thr[t].pc.Spawn? && s'.thr[c] == Child(p, s.thr[t])
    && s'.thr == s.thr[c := s'.thr[c]][t := s'.thr[t]] && s'.mem == s.mem && s'.file == s.file
    && Calm(s') && s'.life == s.life && s'.lk.cf == s.lk.cf
    && s'.lk.w == (if s.thr[t].pc.ahead then s.lk.w else None) && s'.thr[t] == s.thr[t].(pc := if s.thr[t].pc.ahead then EndPiece else Check)
    && Distance(p, s'.thr[c], None) < Distance(p, s.thr[t], TsOf(s, t)) && Distance(p, s'.thr[t], TsOf(s, t)) == 0
  }

  lemma GoesSpawn(p: Params, s0: State, s: State, t: Tid) returns (s': State, c: Tid)
    requires p.blksz > 0 && Leads(p, s0, s) && Calm(s) && IsReader(s, t) && s.thr[t].pc.Spawn?
    ensures Leads(p, s0, s') && Launches(p, s, s', t, c)
  {
    hide Leads;
    c := Fresh(s.thr.Keys);
    s' := ThenRead(p, s0, s, t, ReadSpawn(c));
  }

  // ----- all of them come to rest -----

  /** The sum of the distances. */
  ghost function Sum(m: map<Tid, nat>): nat
    decreases |m|
  {
    if m == map[] then 0
    else
      var x :| x in m;
      Smaller(m, x);
      m[x] + Sum(m - {x})
  }

  lemma Smaller(m: map<Tid, nat>, x: Tid)
    requires x in m
    ensures |m - {x}| < |m|
  {
    assert m.Keys == (m - {x}).Keys + {x};
  }

  lemma {:induction false} SumTake(m: map<Tid, nat>, x: Tid)
    requires x in m
    ensures Sum(m) == m[x] + Sum(m - {x})
    decreases |m|
  {
    var y :| y in m && Sum(m) == m[y] + Sum(m - {y});
    if y != x {
      Smaller(m, x);
      Smaller(m, y);
      SumTake(m - {y}, x);
      SumTake(m - {x}, y);
      assert m - {y} - {x} == m - {x} - {y};
    }
  }

  lemma SumPut(m: map<Tid, nat>, x: Tid, v: nat)
    ensures Sum(m[x := v]) == Sum(m) + v - (if x in m then m[x] else 0)
  {
    SumTake(m[x := v], x);
    assert m[x := v] - {x} == m - {x};
    if x in m {
      SumTake(m, x);
    } else {
      assert m - {x} == m;
    }
  }

  ghost function Distances(p: Params, s: State): map<Tid, nat>
    requires p.blksz > 0
  {
    map t: Tid | t in s.thr :: Distance(p, s.thr[t], TsOf(s, t))
  }

  lemma CloserSums(p: Params, s: State, s': State, t: Tid)
    requires p.blksz > 0 && ComesCloser(p, s, s', t)
    ensures Sum(Distances(p, s')) < Sum(Distances(p, s))
  {
    OthersSame(s, s', t);
    hide Distance, TsOf, Onward;
    assert Distances(p, s') == Distances(p, s)[t := Distance(p, s'.thr[t], TsOf(s', t))];
    SumPut(Distances(p, s), t, Distance(p, s'.thr[t], TsOf(s', t)));
  }

  lemma OthersSame(s: State, s': State, t: Tid)
    requires s'.mem.ts - {t} == s.mem.ts - {t}
    ensures forall u :: u != t ==> TsOf(s', u) == TsOf(s, u)
  {
    forall u | u != t
      ensures TsOf(s', u) == TsOf(s, u)
    {
      assert u in s'.mem.ts <==> u in s'.mem.ts - {t};
      assert u in s.mem.ts <==> u in s.mem.ts - {t};
      if u in s.mem.ts {
        assert s'.mem.ts[u] == (s'.mem.ts - {t})[u] && s.mem.ts[u] == (s.mem.ts - {t})[u];
      }
    }
  }

  lemma LaunchSums(p: Params, s: State, s': State, t: Tid, c: Tid)
    requires p.blksz > 0 && Launches(p, s, s', t, c) && c !in s.mem.ts
    ensures Sum(Distances(p, s')) < Sum(Distances(p, s))
  {
    hide Distance;
    var d: map<Tid, nat> := Distances(p, s);
    var dc, dt := Distance(p, s'.thr[c], None), Distance(p, s'.thr[t], TsOf(s, t));
    var d1: map<Tid, nat> := d[c := dc];
    assert Distances(p, s') == d1[t := dt];
    SumPut(d, c, dc);
    SumPut(d1, t, dt);
  }

  /** Every thread is at rest: no lock but `cf_lock` is held and nobody has a tracker to remove. */
  ghost predicate Rested(p: Params, s: State)
    requires p.blksz > 0
  {
    Calm(s) && forall t :: t in s.thr ==> Distance(p, s.thr[t], TsOf(s, t)) == 0
  }

  /** Threads at rest have not moved, the others have only gone onward, and new ones are in the background. */
  ghost predicate Kept(p: Params, s: State, s': State)
    requires p.blksz > 0
  {
    && s'.life == s.life && s'.lk.cf == s.lk.cf
    && (forall u :: u in s.thr ==> u in s'.thr && KeptOne(p, s, s', u))
    && (forall u :: u in s'.thr && u !in s.thr ==> s'.thr[u].role.Bg?)
  }

  ghost predicate KeptOne(p: Params, s: State, s': State, u: Tid)
    requires p.blksz > 0 && u in s.thr && u in s'.thr
  {
    && (Distance(p, s.thr[u], TsOf(s, u)) == 0 ==> s'.thr[u] == s.thr[u] && TsOf(s', u) == TsOf(s, u))
    && (Distance(p, s.thr[u], TsOf(s, u)) > 0 ==> Onward(s.thr[u], s'.thr[u]))
  }

  lemma CloserKept(p: Params, s: State, s': State, t: Tid)
    requires p.blksz > 0 && ComesCloser(p, s, s', t)
    ensures Kept(p, s, s')
  {
    OthersSame(s, s', t);
    hide Distance, TsOf, Onward;
  }

  lemma LaunchKept(p: Params, s: State, s': State, t: Tid, c: Tid)
    requires p.blksz > 0 && Launches(p, s, s', t, c)
    ensures Kept(p, s, s')
  {
    assert forall u :: u in s.thr && u != t ==> s'.thr[u] == s.thr[u];
  }

  lemma KeptOn(p: Params, s: State, s1: State, s2: State)
    requires p.blksz > 0 && Kept(p, s, s1) && Kept(p, s1, s2)
    ensures Kept(p, s, s2)
  {
    forall u | u in s.thr
      ensures u in s2.thr && KeptOne(p, s, s2, u)
    {
      assert KeptOne(p, s, s1, u) && KeptOne(p, s1, s2, u);
    }
    forall u | u in s2.thr && u !in s.thr
      ensures s2.thr[u].role.Bg?
    {
      if u in s1.thr {
        assert KeptOne(p, s1, s2, u);
      }
    }
  }

  lemma KeptSelf(p: Params, s: State)
    requires p.blksz > 0
    ensures Kept(p, s, s)
  {
  }

  /** What the invariant says about the thread that moves next. */
  ghost predicate Ready(p: Params, s: State, t: Tid)
    requires p.blksz > 0
  {
    && t in s.thr && Distance(p, s.thr[t], TsOf(s, t)) > 0 && (s.lk.w.None? || s.lk.w == Some(t))
    && !s.life.shutting
    && (s.thr[t].role.Reader? ==> ReaderPc(s.thr[t].pc)) && (s.thr[t].role.Bg? ==> BgPc(s.thr[t].pc))
    && (HoldsW(s.thr[t]) ==> s.lk.w == Some(t)) && (s.lk.w == Some(t) ==> HoldsW(s.thr[t]))
    && (HasTs(s.thr[t]) ==> t in s.mem.ts && |s.mem.ts[t].data| <= Size(p, Cur(p, s.thr[t])))
  }

  /** If not all are at rest, some thread is ready: the holder of `w_lock`, if there is one. */
  lemma SomeReady(p: Params, s: State, seg0: seq<bool>) returns (t: Tid)
    requires p.blksz > 0 && Inv(p, s, seg0) && Calm(s) && !Rested(p, s)
    ensures Ready(p, s, t)
  {
    var u :| u in s.thr && Distance(p, s.thr[u], TsOf(s, u)) > 0;
    WHolder(p, s, seg0);
    t := if s.lk.w.Some? then s.lk.w.value else u;
    NotResting(p, s, t);
    MoverFacts(p, s, t, seg0);
  }

  lemma WHolder(p: Params, s: State, seg0: seq<bool>)
    requires p.blksz > 0 && Inv(p, s, seg0)
    ensures s.lk.w.Some? ==> s.lk.w.value in s.thr && HoldsW(s.thr[s.lk.w.value])
  {
    hide LocksCf, LocksDl, NetOk, WaiterCount, SlotCount, CloserWakeUp, Handles, Phases, FileInv, MemInv, Locals, HoldsW;
  }

  lemma NotResting(p: Params, s: State, t: Tid)
    requires p.blksz > 0 && t in s.thr
    ensures HoldsW(s.thr[t]) ==> Distance(p, s.thr[t], TsOf(s, t)) > 0
    ensures Distance(p, s.thr[t], TsOf(s, t)) > 0 ==> Active(s.thr[t]) && !s.thr[t].role.Closer?
  {
  }

  lemma MoverFacts(p: Params, s: State, t: Tid, seg0: seq<bool>)
    requires p.blksz > 0 && Inv(p, s, seg0) && t in s.thr && Active(s.thr[t]) && !s.thr[t].role.Closer?
    ensures !s.life.shutting
    ensures (s.thr[t].role.Reader? ==> ReaderPc(s.thr[t].pc)) && (s.thr[t].role.Bg? ==> BgPc(s.thr[t].pc))
    ensures HoldsW(s.thr[t]) <==> s.lk.w == Some(t)
    ensures HasTs(s.thr[t]) ==> t in s.mem.ts && |s.mem.ts[t].data| <= Size(p, Cur(p, s.thr[t]))
  {
    NotSavedYet(p, s, t);
    OneLocal(p, s, t, seg0);
    RolePc(p, s.thr[t]);
    HasItsTs(p, s, t);
    NoTs(p, s, t);
    HoldsIffW(p, s, t, seg0);
    hide Inv, LocalOk, Size;
  }

  lemma HoldsIffW(p: Params, s: State, t: Tid, seg0: seq<bool>)
    requires p.blksz > 0 && Inv(p, s, seg0) && t in s.thr
    ensures HoldsW(s.thr[t]) <==> s.lk.w == Some(t)
  {
    hide LocksCf, LocksDl, NetOk, WaiterCount, SlotCount, CloserWakeUp, Handles, Phases, FileInv, MemInv, Locals, HoldsW;
  }

  /** A ready thread other than a launcher comes closer to rest. */
  lemma Goes(p: Params, s0: State, s: State, t: Tid) returns (s': State)
    requires p.blksz > 0 && Leads(p, s0, s) && Calm(s) && Ready(p, s, t) && !s.thr[t].pc.Spawn?
    ensures Leads(p, s0, s') && ComesCloser(p, s, s', t)
  {
    hide Leads, ComesCloser, Cur, Size;
    match s.thr[t].pc
    case Find => s' := GoesFind(p, s0, s, t);
    case TrySlot => s' := GoesTrySlot(p, s0, s, t);
    case Launch => s' := GoesLaunch(p, s0, s, t);
    case BackOff => s' := GoesBackOff(p, s0, s, t);
    case Register(_) => s' := GoesRegister(p, s0, s, t);
    case SyncAdd => s' := GoesSyncAdd(p, s0, s, t);
    case FindAhead(_) => s' := GoesFindAhead(p, s0, s, t);
    case Attach => s' := GoesAttach(p, s0, s, t);
    case AddHandle => s' := GoesAddHandle(p, s0, s, t);
    case Transfer => if s.mem.ts[t].on { s' := GoesTransfer(p, s0, s, t); } else { s' := GoesLeave(p, s0, s, t); }
    case Detach => s' := GoesDetach(p, s0, s, t);
    case Store(_, _) => s' := GoesStore(p, s0, s, t);
    case Untrack => s' := GoesUntrack(p, s0, s, t);
    case BgUntrack => s' := GoesBgUntrack(p, s0, s, t);
    case BgPost => s' := GoesBgPost(p, s0, s, t);
  }

  /** From any state in which nobody holds `dl_lock` or `transfer_lock`, all threads come to rest. */
  lemma {:induction false} ComeToRest(p: Params, s0: State, s: State, seg0: seq<bool>) returns (s': State)
    requires p.blksz > 0 && Inv(p, s0, seg0) && Leads(p, s0, s) && Calm(s)
    ensures Leads(p, s0, s') && Rested(p, s') && Kept(p, s, s')
    decreases Sum(Distances(p, s))
  {
    hide Leads, Inv, Kept, ComesCloser, Launches, Ready, Sum, Distances;
    if Rested(p, s) {
      s' := s;
      KeptSelf(p, s);
    } else {
      LeadsKeeps(p, s0, s, seg0);
      var t := SomeReady(p, s, seg0);
      var s1 := OneMove(p, s0, s, t, seg0);
      s' := ComeToRest(p, s0, s1, seg0);
      KeptOn(p, s, s1, s');
    }
  }

  lemma OneMove(p: Params, s0: State, s: State, t: Tid, seg0: seq<bool>) returns (s': State)
    requires p.blksz > 0 && Inv(p, s, seg0) && Leads(p, s0, s) && Calm(s) && Ready(p, s, t)
    ensures Leads(p, s0, s') && Calm(s') && Kept(p, s, s') && Sum(Distances(p, s')) < Sum(Distances(p, s))
  {
    IsCalm(p, s, t);
    hide Leads, Inv, Kept, ComesCloser, Launches, Sum, Distances;
    if s.thr[t].pc.Spawn? {
      hide Ready;
      var c;
      s', c := GoesSpawn(p, s0, s, t);
      NewHasNoTs(p, s, c, seg0);
      LaunchSums(p, s, s', t, c);
      LaunchKept(p, s, s', t, c);
    } else {
      s' := Goes(p, s0, s, t);
      CloserSums(p, s, s', t);
      CloserKept(p, s, s', t);
    }
  }

  lemma IsCalm(p: Params, s: State, t: Tid)
    requires p.blksz > 0 && Ready(p, s, t)
    ensures t in s.thr && (s.thr[t].pc.Spawn? ==> IsReader(s, t))
  {
  }
}
