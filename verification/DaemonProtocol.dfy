/** Every interleaving of the daemon's goroutines (gui/internal/daemon/daemon.go). */
module DaemonProtocol {
  import opened Wrappers

  // A state holds the daemon's shared fields, the dispatcher, and one program counter for
  // each other goroutine inside a daemon call. A step is one critical section, or one channel
  // or atomic operation. Fields below the history line are only written; no step's outcome
  // depends on them.

  import opened DaemonState

  type Tid = nat

  /** Where a goroutine stands inside Enqueue. */
  datatype EnqPc =
    | EnqStart(id: TaskId)
    | EnqStamped(id: TaskId, gen: nat, ctx: Ctx)
    | EnqNoRun(id: TaskId, gen: nat, ctx: Ctx)
    | EnqOwned(id: TaskId, gen: nat, ctx: Ctx)
    | EnqUndo(id: TaskId)

  /** ... inside TryReserveAutomationRun. */
  datatype ResPc =
    | ResStart(id: TaskId)
    | ResFree(id: TaskId)
    | ResNoRun(id: TaskId)
    | ResListed(id: TaskId, ids: set<TaskId>)
    | ResExtra(id: TaskId, extra: nat)
    | ResCounted(id: TaskId, extra: nat, n: nat)
    | ResFits(id: TaskId, extra: nat)
    | ResHolding(id: TaskId)
    | ResBounded(id: TaskId, limit: int)
    | ResUndo

  /** ... inside ReleaseAutomationRun. */
  datatype RelPc = RelStart(id: TaskId) | RelOwes

  /** ... inside the goroutine that dispatchOne launches. */
  datatype JobPc = JobStart(item: Item) | JobRun(item: Item, ctx: Ctx) | JobEnd(item: Item) | JobOwes

  /** ... inside deactivate. */
  datatype DeaPc = DeaCancel(ctx: Ctx) | DeaWait | DeaEmpty

  /** `AgentOwes` is an insertion into AgentService.active, or a removal from it, that has not
      yet called notifyActiveChanged. */
  datatype Pc =
    | Enq(e: EnqPc)
    | Res(r: ResPc)
    | Rel(l: RelPc)
    | Job(j: JobPc)
    | Dea(d: DeaPc)
    | AgentOwes(id: TaskId)
  {
    /** The goroutine is counted in runningWorkers. */
    predicate HoldsSlot() {
      match this
      case Res(r) => r.ResHolding? || r.ResBounded? || r.ResUndo?
      case Rel(l) => l.RelOwes?
      case Job(_) => true
      case _ => false
    }

    /** The task whose entry in the active set this goroutine must pass on or remove. */
    predicate Owns(id: TaskId) {
      match this
      case Enq(e) => (e.EnqOwned? || e.EnqUndo?) && e.id == id
      case Job(j) => !j.JobOwes? && j.item.id == id
      case _ => false
    }

    /** The next section runs under workerLimitMu. */
    predicate NeedsGateLock() {
      match this
      case Res(r) => r.ResCounted? || r.ResFits? || r.ResHolding? || r.ResUndo?
      case Rel(l) => l.RelOwes?
      case Job(j) => j.JobOwes?
      case AgentOwes(_) => true
      case _ => false
    }
  }

  /** What acquireWorkerSlot saw when it decided to wait. */
  datatype Seen = Seen(running: int, max: int, ids: set<TaskId>, extra: nat)

  datatype Dispatcher =
    | Idle
    | Got(item: Item)
    | Acquiring(item: Item, ctx: Ctx)
    | Locked(item: Item, ctx: Ctx)
    | Listed(item: Item, ctx: Ctx, ids: set<TaskId>)
    | Parked(item: Item, ctx: Ctx, chan: nat, seen: Seen)
    | Dropping(item: Item)
    | Stopped
  {
    predicate HasItem() { !Idle? && !Stopped? }

    /** The dispatcher is inside acquireWorkerSlot's workerLimitMu section. */
    predicate HoldsGateLock() { Locked? || Listed? }

    predicate HasCtx() { Acquiring? || Locked? || Listed? || Parked? }
  }

  /** The daemon's fields, and AgentService.active. */
  datatype Shared = Shared(
    gate: Gate,
    roster: Roster,
    board: Board,
    cancelled: set<Ctx>,
    rootDone: bool,
    queue: seq<Item>,
    agentRuns: set<TaskId>)

  /** Every item ever queued, how many left the queue, the positions granted a slot and
      the generation each context was created for. */
  datatype History = History(
    enqueued: seq<Item>,
    taken: nat,
    granted: seq<int>,
    stamp: map<Ctx, nat>)

  datatype State = State(sh: Shared, threads: map<Tid, Pc>, disp: Dispatcher, h: History)

  function Init(max: int): State {
    State(Shared(Gate(if max < 1 then 1 else max, 0, 0), Roster({}, {}), Board(false, 0, 0), {}, false, [], {}),
          map[], Idle, History([], 0, [], map[]))
  }

  datatype Step =
    | Call(t: Tid, pc: Pc)
    | Deactivate(t: Tid)
    | Activate(c: Ctx)
    | SetMax(n: int, cpus: int)
    | AgentAdd(t: Tid, id: TaskId)
    | AgentRemove(t: Tid, id: TaskId)
    | CancelRoot
    | Run(t: Tid)
    | Bail(t: Tid)
    | Dispatch(t: Tid)
    | Quit

  /** The program counters at which a call of the daemon begins. */
  predicate Entry(pc: Pc) {
    match pc
    case Enq(e) => e.EnqStart?
    case Res(r) => r.ResStart?
    case Rel(l) => l.RelStart?
    case _ => false
  }

  /** `buffer` is the capacity of the queue channel. */
  predicate Enabled(s: State, st: Step, buffer: nat) {
    match st
    case Call(t, pc) => t !in s.threads && Entry(pc)
    case Deactivate(t) => t !in s.threads && s.sh.board.activated
    case Activate(c) => !s.sh.board.activated && c !in s.h.stamp
    case SetMax(_, _) => !s.disp.HoldsGateLock()
    case AgentAdd(t, id) => t !in s.threads && id !in s.sh.agentRuns
    case AgentRemove(t, id) => t !in s.threads && id in s.sh.agentRuns
    case CancelRoot => true
    case Run(t) => t in s.threads && CanRun(s, s.threads[t], buffer)
    case Bail(t) => t in s.threads && CanBail(s, s.threads[t], buffer)
    case Dispatch(t) =>
      && (s.disp.Idle? ==> s.sh.queue != [])
      && (s.disp.Listed? ==> t !in s.threads)
      && (s.disp.Parked? ==> s.disp.chan < s.sh.gate.wake)
      && !s.disp.Stopped?
    case Quit =>
      || (s.disp.Idle? && s.sh.rootDone)
      || (s.disp.Parked? && (s.disp.ctx in s.sh.cancelled || s.sh.rootDone))
  }

  predicate CanRun(s: State, pc: Pc, buffer: nat) {
    && (pc.Enq? && pc.e.EnqOwned? ==> |s.sh.queue| < buffer)
    && (pc.Dea? && pc.d.DeaWait? ==> s.sh.roster.active == {})
    && (pc.NeedsGateLock() ==> !s.disp.HoldsGateLock())
  }

  predicate CanBail(s: State, pc: Pc, buffer: nat) {
    || (pc.Dea? && pc.d.DeaWait?)
    || (pc.Enq? && pc.e.EnqOwned? && (pc.e.ctx in s.sh.cancelled || s.sh.rootDone || |s.sh.queue| >= buffer))
  }

  /** What one critical section leaves: the shared fields, the goroutine's next program
      counter (none when it returns) and the history. */
  datatype Effect = Effect(sh: Shared, next: Option<Pc>, h: History)
  function RunEnq(sh: Shared, h: History, e: EnqPc): Effect {
    match e
    case EnqStart(id) =>
      Effect(sh, if sh.board.activated then Some(Enq(EnqStamped(id, sh.board.generation, sh.board.ctx))) else None, h)
    case EnqStamped(id, g, c) =>
      Effect(sh, if id == "" || id in sh.agentRuns then None else Some(Enq(EnqNoRun(id, g, c))), h)
    case EnqNoRun(id, g, c) =>
      if id in sh.roster.active then Effect(sh, None, h)
      else Effect(sh.(roster := sh.roster.Add(id)), Some(Enq(EnqOwned(id, g, c))), h)
    case EnqOwned(id, g, _) =>
      Effect(sh.(queue := sh.queue + [Item(id, g)]), None, h.(enqueued := h.enqueued + [Item(id, g)]))
    case EnqUndo(id) => Effect(sh.(roster := sh.roster.Remove(id)), None, h)
  }

  function RunRes(sh: Shared, h: History, r: ResPc): Effect {
    match r
    case ResStart(id) => Effect(sh, if id == "" || id in sh.roster.active then None else Some(Res(ResFree(id))), h)
    case ResFree(id) => Effect(sh, if id in sh.agentRuns then None else Some(Res(ResNoRun(id))), h)
    case ResNoRun(id) => Effect(sh, Some(Res(ResListed(id, sh.agentRuns))), h)
    case ResListed(id, ids) => Effect(sh, Some(Res(ResExtra(id, sh.roster.Unreserved(ids)))), h)
    case ResExtra(id, extra) => Effect(sh, Some(Res(ResCounted(id, extra, |sh.roster.active|))), h)
    case ResCounted(id, extra, n) =>
      Effect(sh, if n + extra >= sh.gate.max then None else Some(Res(ResFits(id, extra))), h)
    case ResFits(id, extra) =>
      if sh.gate.HasRoom(extra) then Effect(sh.(gate := sh.gate.Take()), Some(Res(ResHolding(id))), h)
      else Effect(sh, None, h)
    case ResHolding(id) => Effect(sh, Some(Res(ResBounded(id, sh.gate.max))), h)
    case ResBounded(id, limit) =>
      if id in sh.roster.active || |sh.roster.active| >= limit then Effect(sh, Some(Res(ResUndo)), h)
      else Effect(sh.(roster := sh.roster.Reserve(id)), None, h)
    case ResUndo => Effect(sh.(gate := sh.gate.Give()), None, h)
  }

  function RunRel(sh: Shared, h: History, l: RelPc): Effect {
    match l
    case RelStart(id) =>
      if id != "" && id in sh.roster.automation then
        Effect(sh.(roster := sh.roster.Unreserve(id)), Some(Rel(RelOwes)), h)
      else Effect(sh, None, h)
    case RelOwes => Effect(sh.(gate := sh.gate.Give()), None, h)
  }

  function RunJob(sh: Shared, h: History, j: JobPc): Effect {
    match j
    case JobStart(item) =>
      Effect(sh, Some(Job(if sh.board.Current(item.generation) then JobRun(item, sh.board.ctx) else JobEnd(item))), h)
    case JobRun(item, _) => Effect(sh, Some(Job(JobEnd(item))), h)
    case JobEnd(item) => Effect(sh.(roster := sh.roster.Remove(item.id)), Some(Job(JobOwes)), h)
    case JobOwes => Effect(sh.(gate := sh.gate.Give()), None, h)
  }

  function RunDea(sh: Shared, h: History, d: DeaPc): Effect {
    match d
    case DeaCancel(c) => Effect(sh.(cancelled := sh.cancelled + {c}), Some(Dea(DeaWait)), h)
    case DeaWait => Effect(sh, Some(Dea(DeaEmpty)), h)
    case DeaEmpty => Effect(sh.(roster := Roster({}, {})), None, h)
  }

  /** One critical section of a goroutine standing at `pc`. */
  function RunPc(sh: Shared, h: History, pc: Pc): Effect {
    match pc
    case Enq(e) => RunEnq(sh, h, e)
    case Res(r) => RunRes(sh, h, r)
    case Rel(l) => RunRel(sh, h, l)
    case Job(j) => RunJob(sh, h, j)
    case Dea(d) => RunDea(sh, h, d)
    case AgentOwes(_) => Effect(sh.(gate := sh.gate.Signal()), None, h)
  }

  /** Enqueue's other select cases, and the expiry of deactivate's grace period. */
  function BailPc(pc: Pc): Option<Pc> {
    match pc
    case Enq(e) => Some(Enq(EnqUndo(e.id)))
    case _ => None
  }

  function Moved(threads: map<Tid, Pc>, t: Tid, next: Option<Pc>): map<Tid, Pc> {
    match next
    case Some(pc) => threads[t := pc]
    case None => threads - {t}
  }

  /** One section of worker/dispatchOne/acquireWorkerSlot; `t` names the goroutine that a
      successful acquire launches. */
  function RunDispatcher(s: State, t: Tid): State
    requires s.disp.Idle? ==> s.sh.queue != []
  {
    match s.disp
    case Idle =>
      s.(sh := s.sh.(queue := s.sh.queue[1..]), disp := Got(s.sh.queue[0]), h := s.h.(taken := s.h.taken + 1))
    case Got(item) =>
      s.(disp := if s.sh.board.Current(item.generation) then Acquiring(item, s.sh.board.ctx) else Dropping(item))
    case Acquiring(item, c) => s.(disp := Locked(item, c))
    case Locked(item, c) => s.(disp := Listed(item, c, s.sh.agentRuns))
    case Listed(item, c, ids) =>
      var extra := s.sh.roster.Unreserved(ids);
      if s.sh.gate.HasRoom(extra) then
        State(s.sh.(gate := s.sh.gate.Take()), s.threads[t := Job(JobStart(item))], Idle,
              s.h.(granted := s.h.granted + [s.h.taken - 1]))
      else
        s.(disp := Parked(item, c, s.sh.gate.wake, Seen(s.sh.gate.running, s.sh.gate.max, ids, extra)))
    case Parked(item, c, _, _) => s.(disp := Acquiring(item, c))
    case Dropping(item) => s.(sh := s.sh.(roster := s.sh.roster.Remove(item.id)), disp := Idle)
    case Stopped => s
  }

  function Apply(s: State, st: Step, buffer: nat): State
    requires Enabled(s, st, buffer)
  {
    match st
    case Call(t, pc) => s.(threads := s.threads[t := pc])
    case Deactivate(t) =>
      s.(sh := s.sh.(board := s.sh.board.Deactivate()), threads := s.threads[t := Dea(DeaCancel(s.sh.board.ctx))])
    case Activate(c) =>
      s.(sh := s.sh.(board := s.sh.board.Activate(c)), h := s.h.(stamp := s.h.stamp[c := s.sh.board.generation + 1]))
    case SetMax(n, cpus) => s.(sh := s.sh.(gate := s.sh.gate.Resize(ClampWorkers(n, cpus))))
    case AgentAdd(t, id) =>
      s.(sh := s.sh.(agentRuns := s.sh.agentRuns + {id}), threads := s.threads[t := AgentOwes(id)])
    case AgentRemove(t, id) =>
      s.(sh := s.sh.(agentRuns := s.sh.agentRuns - {id}), threads := s.threads[t := AgentOwes(id)])
    case CancelRoot => s.(sh := s.sh.(rootDone := true))
    case Run(t) =>
      var x := RunPc(s.sh, s.h, s.threads[t]);
      State(x.sh, Moved(s.threads, t, x.next), s.disp, x.h)
    case Bail(t) => s.(threads := Moved(s.threads, t, BailPc(s.threads[t])))
    case Dispatch(t) => RunDispatcher(s, t)
    case Quit => s.(disp := if s.disp.Idle? then Stopped else Dropping(s.disp.item))
  }

  /** `deactivate` empties the maps after, not together with, seeing them empty. Its reset
      is quiet when nothing entered the active set in between. */
  predicate Quiet(s: State, st: Step) {
    st.Run? && st.t in s.threads && s.threads[st.t] == Dea(DeaEmpty) ==> s.sh.roster.active == {}
  }

  // ---------------------------------------------------------------- slots

  function Holders(m: map<Tid, Pc>): set<Tid> { set t | t in m && m[t].HoldsSlot() }

  /** runningWorkers counts exactly the goroutines holding a slot and the automation
      reservations. */
  ghost predicate SlotsCounted(s: State) {
    s.sh.gate.running == |Holders(s.threads)| + |s.sh.roster.automation|
  }

  // ---------------------------------------------------------------- ownership

  /** Everything that can answer for an entry of the active set. A queue place is named by
      its position in the enqueue history, so that dequeuing does not rename the others. */
  datatype Owner = Goroutine(t: Tid) | Place(i: nat) | Hand | Reservation

  predicate Owns(s: State, o: Owner, id: TaskId) {
    match o
    case Goroutine(t) => t in s.threads && s.threads[t].Owns(id)
    case Place(i) => s.h.taken <= i < |s.h.enqueued| && s.h.enqueued[i].id == id
    case Hand => s.disp.HasItem() && s.disp.item.id == id
    case Reservation => id in s.sh.roster.automation
  }

  /** Every entry of the active set has exactly one owner, and owners own only entries. */
  ghost predicate Partitioned(s: State) {
    && (forall o, id :: Owns(s, o, id) ==> id in s.sh.roster.active)
    && (forall o, o', id :: Owns(s, o, id) && Owns(s, o', id) ==> o == o')
    && (forall id :: id in s.sh.roster.active ==> exists o :: Owns(s, o, id))
  }

  // ---------------------------------------------------------------- order

  /** The queue is the untaken end of the enqueue history, the dispatcher holds the last
      item taken, and slots were granted in strictly increasing enqueue order. */
  ghost predicate Ordered(queue: seq<Item>, h: History, disp: Dispatcher) {
    && h.taken <= |h.enqueued|
    && queue == h.enqueued[h.taken..]
    && (disp.HasItem() ==> h.taken > 0 && disp.item == h.enqueued[h.taken - 1])
    && (forall i, j :: 0 <= i < j < |h.granted| ==> h.granted[i] < h.granted[j])
    && (forall i :: 0 <= i < |h.granted| ==> 0 <= h.granted[i] < if disp.HasItem() then h.taken - 1 else h.taken)
  }

  // ---------------------------------------------------------------- generations

  predicate StampedBy(stamp: map<Ctx, nat>, c: Ctx, g: nat) { c in stamp && stamp[c] == g }

  predicate Live(b: Board, c: Ctx) { b.activated && b.ctx == c }

  ghost predicate Retired(s: State, c: Ctx) {
    c in s.sh.cancelled || exists t :: t in s.threads && s.threads[t] == Dea(DeaCancel(c))
  }

  predicate PcStamped(stamp: map<Ctx, nat>, pc: Pc) {
    match pc
    case Enq(e) => e.EnqStamped? || e.EnqNoRun? || e.EnqOwned? ==> StampedBy(stamp, e.ctx, e.gen)
    case Job(j) => j.JobRun? ==> StampedBy(stamp, j.ctx, j.item.generation)
    case _ => true
  }

  /** A context reaches an item only if both belong to one activation, and the context of
      an activation that is over is cancelled or about to be. */
  ghost predicate Stamped(s: State) {
    && (forall c :: c in s.h.stamp ==> s.h.stamp[c] <= s.sh.board.generation)
    && (forall c, c' :: c in s.h.stamp && c' in s.h.stamp && s.h.stamp[c] == s.h.stamp[c'] ==> c == c')
    && (forall c :: c in s.h.stamp && !Live(s.sh.board, c) ==> Retired(s, c))
    && (s.sh.board.activated ==> StampedBy(s.h.stamp, s.sh.board.ctx, s.sh.board.generation))
    && (s.disp.HasCtx() ==> StampedBy(s.h.stamp, s.disp.ctx, s.disp.item.generation))
    && (forall t :: t in s.threads ==> PcStamped(s.h.stamp, s.threads[t]))
  }

  // ---------------------------------------------------------------- wakeups

  ghost predicate OwesNotify(threads: map<Tid, Pc>, id: TaskId) {
    exists t :: t in threads && threads[t] == AgentOwes(id)
  }

  /** Every listed run that has ended since is covered by a notify still to come. */
  ghost predicate RemovalsOwed(s: State, ids: set<TaskId>) {
    forall id :: id in ids && id !in s.sh.agentRuns ==> OwesNotify(s.threads, id)
  }

  ghost predicate SleepsSoundly(s: State, chan: nat, seen: Seen) {
    && chan <= s.sh.gate.wake
    && seen.extra <= |seen.ids|
    && seen.running + seen.extra >= seen.max
    && (chan == s.sh.gate.wake ==>
          && s.sh.gate.running >= seen.running
          && s.sh.gate.max <= seen.max
          && RemovalsOwed(s, seen.ids))
  }

  /** While the dispatcher sleeps on an unclosed channel, nothing it waits for has
      happened without a signal that is still due. */
  ghost predicate Awake(s: State) {
    && (s.disp.Listed? ==> RemovalsOwed(s, s.disp.ids))
    && (s.disp.Parked? ==> SleepsSoundly(s, s.disp.chan, s.disp.seen))
  }

  ghost predicate Inv(s: State) {
    && SlotsCounted(s)
    && Partitioned(s)
    && Ordered(s.sh.queue, s.h, s.disp)
    && Stamped(s)
    && Awake(s)
  }

  lemma InitInv(max: int)
    ensures Inv(Init(max))
  {
  }

  // ---------------------------------------------------------------- slots: every step

  lemma HoldersMoved(m: map<Tid, Pc>, t: Tid, next: Option<Pc>)
    ensures var before := if t in m && m[t].HoldsSlot() then 1 else 0;
            var after := if next.Some? && next.value.HoldsSlot() then 1 else 0;
            |Holders(Moved(m, t, next))| == |Holders(m)| - before + after
  {
    HoldersBeside(m, t);
    HoldersBeside(Moved(m, t, next), t);
    assert OtherHolders(Moved(m, t, next), t) == OtherHolders(m, t);
  }

  function OtherHolders(m: map<Tid, Pc>, t: Tid): set<Tid> { set u | u in m && u != t && m[u].HoldsSlot() }

  lemma HoldersBeside(m: map<Tid, Pc>, t: Tid)
    ensures |Holders(m)| == |OtherHolders(m, t)| + if t in m && m[t].HoldsSlot() then 1 else 0
  {
    if t in m && m[t].HoldsSlot() {
      assert Holders(m) == OtherHolders(m, t) + {t};
    } else {
      assert Holders(m) == OtherHolders(m, t);
    }
  }

  function Slots(pc: Option<Pc>): int { if pc.Some? && pc.value.HoldsSlot() then 1 else 0 }

  /** A section changes the count, the reservations and its own holding together. */
  predicate Balanced(sh: Shared, pc: Pc, x: Effect) {
    x.sh.gate.running - |x.sh.roster.automation| - Slots(x.next)
    == sh.gate.running - |sh.roster.automation| - Slots(Some(pc))
  }

  lemma ResBalanced(sh: Shared, h: History, r: ResPc)
    requires r.ResUndo? ==> sh.gate.running > 0
    requires sh.roster.automation <= sh.roster.active
    ensures Balanced(sh, Res(r), RunRes(sh, h, r))
  {
    match r
    case ResBounded(id, limit) => ReserveBalanced(sh, h, id, limit);
    case _ =>
  }

  lemma ReserveBalanced(sh: Shared, h: History, id: TaskId, limit: int)
    requires sh.roster.automation <= sh.roster.active
    ensures Balanced(sh, Res(ResBounded(id, limit)), RunRes(sh, h, ResBounded(id, limit)))
  {
    if id !in sh.roster.active {
      assert |sh.roster.automation + {id}| == |sh.roster.automation| + 1;
    }
  }

  lemma RelBalanced(sh: Shared, h: History, l: RelPc)
    requires l.RelOwes? ==> sh.gate.running > 0
    ensures Balanced(sh, Rel(l), RunRel(sh, h, l))
  {
    if l.RelStart? && l.id in sh.roster.automation {
      assert |sh.roster.automation - {l.id}| == |sh.roster.automation| - 1;
    }
  }

  lemma JobBalanced(sh: Shared, h: History, j: JobPc)
    requires j.JobOwes? ==> sh.gate.running > 0
    ensures Balanced(sh, Job(j), RunJob(sh, h, j))
  {
  }

  lemma EnqBalanced(sh: Shared, h: History, e: EnqPc)
    ensures Balanced(sh, Enq(e), RunEnq(sh, h, e))
  {
  }

  lemma SectionBalanced(sh: Shared, h: History, pc: Pc)
    requires pc.HoldsSlot() ==> sh.gate.running > 0
    requires sh.roster.automation <= sh.roster.active
    requires pc == Dea(DeaEmpty) ==> sh.roster.active == {}
    ensures Balanced(sh, pc, RunPc(sh, h, pc))
  {
    match pc
    case Enq(e) => EnqBalanced(sh, h, e);
    case Res(r) => ResBalanced(sh, h, r);
    case Rel(l) => RelBalanced(sh, h, l);
    case Job(j) => JobBalanced(sh, h, j);
    case _ =>
  }

  lemma SlotsStep(s: State, st: Step, buffer: nat)
    requires SlotsCounted(s) && s.sh.roster.automation <= s.sh.roster.active
    requires Enabled(s, st, buffer) && Quiet(s, st)
    ensures SlotsCounted(Apply(s, st, buffer))
  {
    match st
    case Call(t, pc) => HoldersMoved(s.threads, t, Some(pc));
    case Deactivate(t) => HoldersMoved(s.threads, t, Some(Dea(DeaCancel(s.sh.board.ctx))));
    case AgentAdd(t, id) => HoldersMoved(s.threads, t, Some(AgentOwes(id)));
    case AgentRemove(t, id) => HoldersMoved(s.threads, t, Some(AgentOwes(id)));
    case Run(t) =>
      assert s.threads[t].HoldsSlot() ==> t in Holders(s.threads);
      SectionBalanced(s.sh, s.h, s.threads[t]);
      HoldersMoved(s.threads, t, RunPc(s.sh, s.h, s.threads[t]).next);
    case Bail(t) => HoldersMoved(s.threads, t, BailPc(s.threads[t]));
    case Dispatch(t) =>
      if s.disp.Listed? { HoldersMoved(s.threads, t, Some(Job(JobStart(s.disp.item)))); }
    case _ =>
  }

  // ---------------------------------------------------------------- ownership: every step

  /** The four ways ownership changes: not at all, by passing an entry on, by creating one
      and by dropping one. */
  lemma OwnersSame(s: State, s': State)
    requires Partitioned(s) && s'.sh.roster.active == s.sh.roster.active
    requires forall o, id :: Owns(s', o, id) <==> Owns(s, o, id)
    ensures Partitioned(s')
  {
  }

  lemma OwnerPasses(s: State, s': State, from: Owner, to: Owner, id: TaskId)
    requires Partitioned(s) && s'.sh.roster.active == s.sh.roster.active && Owns(s, from, id)
    requires forall o, x :: Owns(s', o, x) <==> (o == to && x == id) || (Owns(s, o, x) && !(o == from && x == id))
    ensures Partitioned(s')
  {
    forall x | x in s'.sh.roster.active
      ensures exists o :: Owns(s', o, x)
    {
      var o :| Owns(s, o, x);
      assert Owns(s', if x == id then to else o, x);
    }
  }

  lemma OwnerAdds(s: State, s': State, to: Owner, id: TaskId)
    requires Partitioned(s) && id !in s.sh.roster.active && s'.sh.roster.active == s.sh.roster.active + {id}
    requires forall o, x :: Owns(s', o, x) <==> (o == to && x == id) || Owns(s, o, x)
    ensures Partitioned(s')
  {
    forall x | x in s'.sh.roster.active
      ensures exists o :: Owns(s', o, x)
    {
      if x == id {
        assert Owns(s', to, x);
      } else {
        var o :| Owns(s, o, x);
        assert Owns(s', o, x);
      }
    }
  }

  lemma OwnerDrops(s: State, s': State, from: Owner, id: TaskId)
    requires Partitioned(s) && Owns(s, from, id) && s'.sh.roster.active == s.sh.roster.active - {id}
    requires forall o, x :: Owns(s', o, x) <==> Owns(s, o, x) && !(o == from && x == id)
    ensures Partitioned(s')
  {
    forall x | x in s'.sh.roster.active
      ensures exists o :: Owns(s', o, x)
    {
      var o :| Owns(s, o, x);
      assert Owns(s', o, x);
    }
  }

  lemma PartitionEnq(s: State, t: Tid, e: EnqPc)
    requires Partitioned(s) && t in s.threads && s.threads[t] == Enq(e) && s.h.taken <= |s.h.enqueued|
    ensures var x := RunEnq(s.sh, s.h, e); Partitioned(State(x.sh, Moved(s.threads, t, x.next), s.disp, x.h))
  {
    var x := RunEnq(s.sh, s.h, e);
    var s' := State(x.sh, Moved(s.threads, t, x.next), s.disp, x.h);
    match e
    case EnqNoRun(id, _, _) =>
      if id in s.sh.roster.active { OwnersSame(s, s'); } else { OwnerAdds(s, s', Goroutine(t), id); }
    case EnqOwned(id, _, _) => OwnerPasses(s, s', Goroutine(t), Place(|s.h.enqueued|), id);
    case EnqUndo(id) => OwnerDrops(s, s', Goroutine(t), id);
    case _ => OwnersSame(s, s');
  }

  lemma PartitionRes(s: State, t: Tid, r: ResPc)
    requires Partitioned(s) && t in s.threads && s.threads[t] == Res(r)
    ensures var x := RunRes(s.sh, s.h, r); Partitioned(State(x.sh, Moved(s.threads, t, x.next), s.disp, x.h))
  {
    var x := RunRes(s.sh, s.h, r);
    var s' := State(x.sh, Moved(s.threads, t, x.next), s.disp, x.h);
    if r.ResBounded? && r.id !in s.sh.roster.active && |s.sh.roster.active| < r.limit {
      OwnerAdds(s, s', Reservation, r.id);
    } else {
      ResRosterStays(s.sh, s.h, r);
      SameOwners(s, s', t);
    }
  }

  /** A goroutine that owns nothing moves to where it owns nothing. */
  lemma SameOwners(s: State, s': State, t: Tid)
    requires Partitioned(s) && s'.sh.roster == s.sh.roster && s'.disp == s.disp && s'.h == s.h
    requires t in s.threads ==> forall id :: !s.threads[t].Owns(id)
    requires t in s'.threads ==> forall id :: !s'.threads[t].Owns(id)
    requires forall u :: u != t ==>
              (u in s'.threads <==> u in s.threads) && (u in s.threads ==> s'.threads[u] == s.threads[u])
    ensures Partitioned(s')
  {
    OwnersSame(s, s');
  }

  lemma ResRosterStays(sh: Shared, h: History, r: ResPc)
    requires !(r.ResBounded? && r.id !in sh.roster.active && |sh.roster.active| < r.limit)
    ensures var x := RunRes(sh, h, r); x.sh.roster == sh.roster && x.h == h && (x.next.Some? ==> x.next.value.Res?)
  {
  }

  lemma PartitionRel(s: State, t: Tid, l: RelPc)
    requires Partitioned(s) && t in s.threads && s.threads[t] == Rel(l)
    ensures var x := RunRel(s.sh, s.h, l); Partitioned(State(x.sh, Moved(s.threads, t, x.next), s.disp, x.h))
  {
    var x := RunRel(s.sh, s.h, l);
    var s' := State(x.sh, Moved(s.threads, t, x.next), s.disp, x.h);
    if l.RelStart? && l.id != "" && l.id in s.sh.roster.automation {
      OwnerDrops(s, s', Reservation, l.id);
    } else {
      OwnersSame(s, s');
    }
  }

  lemma PartitionJob(s: State, t: Tid, j: JobPc)
    requires Partitioned(s) && t in s.threads && s.threads[t] == Job(j)
    ensures var x := RunJob(s.sh, s.h, j); Partitioned(State(x.sh, Moved(s.threads, t, x.next), s.disp, x.h))
  {
    var x := RunJob(s.sh, s.h, j);
    var s' := State(x.sh, Moved(s.threads, t, x.next), s.disp, x.h);
    if j.JobEnd? {
      OwnerDrops(s, s', Goroutine(t), j.item.id);
    } else {
      OwnersSame(s, s');
    }
  }

  lemma PartitionDea(s: State, t: Tid, d: DeaPc)
    requires Partitioned(s) && t in s.threads && s.threads[t] == Dea(d)
    requires d.DeaEmpty? ==> s.sh.roster.active == {}
    ensures var x := RunDea(s.sh, s.h, d); Partitioned(State(x.sh, Moved(s.threads, t, x.next), s.disp, x.h))
  {
    var x := RunDea(s.sh, s.h, d);
    assert forall id :: Owns(s, Reservation, id) ==> id in s.sh.roster.active;
    OwnersSame(s, State(x.sh, Moved(s.threads, t, x.next), s.disp, x.h));
  }

  lemma PartitionTake(s: State)
    requires Partitioned(s) && Ordered(s.sh.queue, s.h, s.disp) && s.disp.Idle? && s.sh.queue != []
    ensures Partitioned(RunDispatcher(s, 0))
  {
    OwnerPasses(s, RunDispatcher(s, 0), Place(s.h.taken), Hand, s.sh.queue[0].id);
  }

  lemma PartitionAcquire(s: State, t: Tid)
    requires Partitioned(s) && s.disp.Listed? && t !in s.threads
    ensures Partitioned(RunDispatcher(s, t))
  {
    if s.sh.gate.HasRoom(s.sh.roster.Unreserved(s.disp.ids)) {
      OwnerPasses(s, RunDispatcher(s, t), Hand, Goroutine(t), s.disp.item.id);
    } else {
      OwnersSame(s, RunDispatcher(s, t));
    }
  }

  lemma PartitionDispatch(s: State, t: Tid)
    requires Partitioned(s) && Ordered(s.sh.queue, s.h, s.disp)
    requires (s.disp.Idle? ==> s.sh.queue != []) && (s.disp.Listed? ==> t !in s.threads)
    ensures Partitioned(RunDispatcher(s, t))
  {
    match s.disp
    case Idle => PartitionTake(s);
    case Listed(_, _, _) => PartitionAcquire(s, t);
    case Dropping(item) => OwnerDrops(s, RunDispatcher(s, t), Hand, item.id);
    case _ => OwnersSame(s, RunDispatcher(s, t));
  }

  lemma PartitionStep(s: State, st: Step, buffer: nat)
    requires Partitioned(s) && Ordered(s.sh.queue, s.h, s.disp) && Enabled(s, st, buffer) && Quiet(s, st)
    ensures Partitioned(Apply(s, st, buffer))
  {
    match st
    case Run(t) =>
      match s.threads[t] {
        case Enq(e) => PartitionEnq(s, t, e);
        case Res(r) => PartitionRes(s, t, r);
        case Rel(l) => PartitionRel(s, t, l);
        case Job(j) => PartitionJob(s, t, j);
        case Dea(d) => PartitionDea(s, t, d);
        case AgentOwes(_) => OwnersSame(s, Apply(s, st, buffer));
      }
    case Dispatch(t) => PartitionDispatch(s, t);
    case _ => OwnersSame(s, Apply(s, st, buffer));
  }

  // ---------------------------------------------------------------- order: every step

  lemma OrderStep(s: State, st: Step, buffer: nat)
    requires Ordered(s.sh.queue, s.h, s.disp) && Enabled(s, st, buffer)
    ensures var s' := Apply(s, st, buffer); Ordered(s'.sh.queue, s'.h, s'.disp)
  {
    match st
    case Run(t) =>
      if s.threads[t].Enq? && s.threads[t].e.EnqOwned? {
        var item := Item(s.threads[t].e.id, s.threads[t].e.gen);
        assert (s.h.enqueued + [item])[s.h.taken..] == s.h.enqueued[s.h.taken..] + [item];
      }
    case Dispatch(t) => OrderDispatch(s, t);
    case _ =>
  }

  lemma OrderDispatch(s: State, t: Tid)
    requires Ordered(s.sh.queue, s.h, s.disp) && (s.disp.Idle? ==> s.sh.queue != [])
    ensures var s' := RunDispatcher(s, t); Ordered(s'.sh.queue, s'.h, s'.disp)
  {
    match s.disp
    case Idle => assert s.sh.queue[1..] == s.h.enqueued[s.h.taken + 1..];
    case Listed(item, _, _) => OrderGrant(s.sh.queue, s.h, s.disp);
    case _ =>
  }

  lemma OrderGrant(queue: seq<Item>, h: History, disp: Dispatcher)
    requires Ordered(queue, h, disp) && disp.HasItem()
    ensures Ordered(queue, h.(granted := h.granted + [h.taken - 1]), Idle)
  {
  }

  // ---------------------------------------------------------------- generations: every step

  lemma StampSection(sh: Shared, h: History, pc: Pc)
    requires sh.board.activated ==> StampedBy(h.stamp, sh.board.ctx, sh.board.generation)
    requires PcStamped(h.stamp, pc)
    ensures var x := RunPc(sh, h, pc);
            x.h.stamp == h.stamp && x.sh.board == sh.board && (x.next.Some? ==> PcStamped(h.stamp, x.next.value))
  {
  }

  lemma RetiredKept(s: State, s': State, t: Tid, c: Ctx)
    requires Retired(s, c) && s.sh.cancelled <= s'.sh.cancelled
    requires t in s.threads && s.threads[t] == Dea(DeaCancel(c)) ==> c in s'.sh.cancelled
    requires forall u :: u in s.threads && u != t ==> u in s'.threads && s'.threads[u] == s.threads[u]
    ensures Retired(s', c)
  {
    if c !in s.sh.cancelled {
      var u :| u in s.threads && s.threads[u] == Dea(DeaCancel(c));
      assert u != t ==> s'.threads[u] == Dea(DeaCancel(c));
    }
  }

  lemma StampCall(s: State, s': State, t: Tid, pc: Pc)
    requires Stamped(s) && t !in s.threads && s' == s.(threads := s.threads[t := pc]) && PcStamped(s.h.stamp, pc)
    ensures Stamped(s')
  {
    forall c | c in s.h.stamp && !Live(s.sh.board, c)
      ensures Retired(s', c)
    {
      RetiredKept(s, s', t, c);
    }
  }

  lemma StampDeactivate(s: State, t: Tid)
    requires Stamped(s) && Enabled(s, Deactivate(t), 0)
    ensures Stamped(Apply(s, Deactivate(t), 0))
  {
    var s' := Apply(s, Deactivate(t), 0);
    assert s'.threads[t] == Dea(DeaCancel(s.sh.board.ctx));
    forall c | c in s.h.stamp && c != s.sh.board.ctx
      ensures Retired(s', c)
    {
      RetiredKept(s, s', t, c);
    }
  }

  lemma StampActivate(s: State, c: Ctx)
    requires Stamped(s) && Enabled(s, Activate(c), 0)
    ensures Stamped(Apply(s, Activate(c), 0))
  {
    var s' := Apply(s, Activate(c), 0);
    assert forall x :: x in s.h.stamp ==> Retired(s, x);
    assert forall x :: Retired(s, x) ==> Retired(s', x);
  }

  lemma StampRun(s: State, t: Tid, buffer: nat)
    requires Stamped(s) && Enabled(s, Run(t), buffer)
    ensures Stamped(Apply(s, Run(t), buffer))
  {
    var s' := Apply(s, Run(t), buffer);
    StampSection(s.sh, s.h, s.threads[t]);
    forall c | c in s.h.stamp && !Live(s.sh.board, c)
      ensures Retired(s', c)
    {
      RetiredKept(s, s', t, c);
    }
  }

  lemma StampBail(s: State, t: Tid, buffer: nat)
    requires Stamped(s) && Enabled(s, Bail(t), buffer)
    ensures Stamped(Apply(s, Bail(t), buffer))
  {
    forall c | c in s.h.stamp && !Live(s.sh.board, c)
      ensures Retired(Apply(s, Bail(t), buffer), c)
    {
      RetiredKept(s, Apply(s, Bail(t), buffer), t, c);
    }
  }

  lemma StampAgent(s: State, s': State, t: Tid, id: TaskId)
    requires Stamped(s) && t !in s.threads
    requires s' == s.(sh := s.sh.(agentRuns := s'.sh.agentRuns), threads := s.threads[t := AgentOwes(id)])
    ensures Stamped(s')
  {
    forall c | c in s.h.stamp && !Live(s.sh.board, c)
      ensures Retired(s', c)
    {
      RetiredKept(s, s', t, c);
    }
  }

  lemma StampStep(s: State, st: Step, buffer: nat)
    requires Stamped(s) && Enabled(s, st, buffer)
    ensures Stamped(Apply(s, st, buffer))
  {
    match st
    case Call(t, pc) => StampCall(s, Apply(s, st, buffer), t, pc);
    case Deactivate(t) => StampDeactivate(s, t);
    case Activate(c) => StampActivate(s, c);
    case AgentAdd(t, id) => StampAgent(s, Apply(s, st, buffer), t, id);
    case AgentRemove(t, id) => StampAgent(s, Apply(s, st, buffer), t, id);
    case Run(t) => StampRun(s, t, buffer);
    case Bail(t) => StampBail(s, t, buffer);
    case Dispatch(t) => StampDispatch(s, t);
    case _ => StampFrame(s, Apply(s, st, buffer));
  }

  lemma StampFrame(s: State, s': State)
    requires Stamped(s) && s'.threads == s.threads && s'.h == s.h
    requires s'.sh.board == s.sh.board && s'.sh.cancelled == s.sh.cancelled
    requires s'.disp.HasCtx() ==> s'.disp == s.disp
    ensures Stamped(s')
  {
    assert forall c :: Retired(s, c) ==> Retired(s', c);
  }

  lemma StampDispatch(s: State, t: Tid)
    requires Stamped(s) && Enabled(s, Dispatch(t), 0)
    ensures Stamped(RunDispatcher(s, t))
  {
    var s' := RunDispatcher(s, t);
    forall c | c in s.h.stamp && !Live(s.sh.board, c)
      ensures Retired(s', c)
    {
      if s.disp.Listed? {
        RetiredKept(s, s', t, c);
      } else {
        assert s'.threads == s.threads;
      }
    }
    StampDispatcher(s, t);
  }

  lemma StampDispatcher(s: State, t: Tid)
    requires Stamped(s) && Enabled(s, Dispatch(t), 0)
    ensures var s' := RunDispatcher(s, t);
            && s'.h.stamp == s.h.stamp && s'.sh.board == s.sh.board
            && (s'.disp.HasCtx() ==> StampedBy(s.h.stamp, s'.disp.ctx, s'.disp.item.generation))
            && (forall u :: u in s'.threads ==> PcStamped(s.h.stamp, s'.threads[u]))
  {
    ThreadsDispatched(s, t);
  }

  /** The dispatcher touches no goroutine but the one it launches. */
  lemma ThreadsDispatched(s: State, t: Tid)
    requires Enabled(s, Dispatch(t), 0)
    ensures var s' := RunDispatcher(s, t);
            s'.threads == s.threads || (s.disp.Listed? && s'.threads == s.threads[t := Job(JobStart(s.disp.item))])
  {
  }

  // ---------------------------------------------------------------- wakeups: every step

  /** A goroutine that owes no notify may come, go or change without losing an owed one. */
  lemma OwedKept(s: State, s': State, ids: set<TaskId>, t: Tid)
    requires s.sh.agentRuns <= s'.sh.agentRuns
    requires t in s.threads ==> !s.threads[t].AgentOwes?
    requires forall u :: u in s.threads && u != t ==> u in s'.threads && s'.threads[u] == s.threads[u]
    ensures RemovalsOwed(s, ids) ==> RemovalsOwed(s', ids)
  {
    if RemovalsOwed(s, ids) {
      forall id | id in ids && id !in s'.sh.agentRuns
        ensures OwesNotify(s'.threads, id)
      {
        var u :| u in s.threads && s.threads[u] == AgentOwes(id);
        assert s'.threads[u] == AgentOwes(id);
      }
    }
  }

  lemma OwedAfterRemoval(s: State, s': State, ids: set<TaskId>, t: Tid, id: TaskId)
    requires t !in s.threads && s'.threads == s.threads[t := AgentOwes(id)]
    requires s'.sh.agentRuns == s.sh.agentRuns - {id}
    ensures RemovalsOwed(s, ids) ==> RemovalsOwed(s', ids)
  {
    if RemovalsOwed(s, ids) {
      assert s'.threads[t] == AgentOwes(id);
      forall x | x in ids && x !in s'.sh.agentRuns
        ensures OwesNotify(s'.threads, x)
      {
        if x != id {
          var u :| u in s.threads && s.threads[u] == AgentOwes(x);
          assert s'.threads[u] == AgentOwes(x);
        }
      }
    }
  }

  /** What a section may do to the gate: never lower it silently. */
  lemma SectionSignals(sh: Shared, h: History, pc: Pc)
    ensures var x := RunPc(sh, h, pc);
            && x.sh.gate.max == sh.gate.max && x.sh.agentRuns == sh.agentRuns
            && x.sh.gate.wake >= sh.gate.wake
            && (x.sh.gate.wake == sh.gate.wake ==> x.sh.gate.running >= sh.gate.running)
            && (x.sh.gate != sh.gate ==> pc.NeedsGateLock())
            && (pc.AgentOwes? ==> x.sh.gate.wake > sh.gate.wake)
  {
  }

  function Watched(d: Dispatcher): set<TaskId> {
    if d.Listed? then d.ids else if d.Parked? then d.seen.ids else {}
  }

  lemma AwakeStep(s: State, st: Step, buffer: nat)
    requires Awake(s) && Enabled(s, st, buffer)
    ensures Awake(Apply(s, st, buffer))
  {
    match st
    case Run(t) => AwakeRun(s, t, buffer);
    case Dispatch(t) => AwakeDispatch(s, t);
    case AgentAdd(t, id) => OwedKept(s, Apply(s, st, buffer), Watched(s.disp), t);
    case AgentRemove(t, id) => OwedAfterRemoval(s, Apply(s, st, buffer), Watched(s.disp), t, id);
    case Call(t, _) => OwedKept(s, Apply(s, st, buffer), Watched(s.disp), t);
    case Deactivate(t) => OwedKept(s, Apply(s, st, buffer), Watched(s.disp), t);
    case Bail(t) => OwedKept(s, Apply(s, st, buffer), Watched(s.disp), t);
    case _ =>
  }

  lemma AwakeRun(s: State, t: Tid, buffer: nat)
    requires Awake(s) && Enabled(s, Run(t), buffer)
    ensures Awake(Apply(s, Run(t), buffer))
  {
    SectionSignals(s.sh, s.h, s.threads[t]);
    if !s.threads[t].AgentOwes? {
      OwedKept(s, Apply(s, Run(t), buffer), Watched(s.disp), t);
    }
  }

  lemma AwakeDispatch(s: State, t: Tid)
    requires Awake(s) && Enabled(s, Dispatch(t), 0)
    ensures Awake(RunDispatcher(s, t))
  {
    if s.disp.Listed? {
      var rest := s.disp.ids - s.sh.roster.active - {""};
      assert |s.disp.ids| == |rest| + |s.disp.ids - rest|;
    }
  }

  // ---------------------------------------------------------------- every run

  /** Every step of every interleaving keeps all five invariants, provided a reset is quiet. */
  lemma InvStep(s: State, st: Step, buffer: nat)
    requires Inv(s) && Enabled(s, st, buffer) && Quiet(s, st)
    ensures Inv(Apply(s, st, buffer))
  {
    ReservedAreActive(s);
    SlotsStep(s, st, buffer);
    PartitionStep(s, st, buffer);
    OrderStep(s, st, buffer);
    StampStep(s, st, buffer);
    AwakeStep(s, st, buffer);
  }

  lemma ReservedAreActive(s: State)
    requires Partitioned(s)
    ensures s.sh.roster.automation <= s.sh.roster.active
  {
    forall id | id in s.sh.roster.automation
      ensures id in s.sh.roster.active
    {
      assert Owns(s, Reservation, id);
    }
  }

  /** `steps` is one interleaving that can happen from `s`. */
  predicate Schedule(s: State, steps: seq<Step>, buffer: nat)
    decreases |steps|
  {
    steps != [] ==>
      Enabled(s, steps[0], buffer) && Schedule(Apply(s, steps[0], buffer), steps[1..], buffer)
  }

  function Final(s: State, steps: seq<Step>, buffer: nat): State
    requires Schedule(s, steps, buffer)
    decreases |steps|
  {
    if steps == [] then s else Final(Apply(s, steps[0], buffer), steps[1..], buffer)
  }

  predicate QuietSchedule(s: State, steps: seq<Step>, buffer: nat)
    requires Schedule(s, steps, buffer)
    decreases |steps|
  {
    steps != [] ==> Quiet(s, steps[0]) && QuietSchedule(Apply(s, steps[0], buffer), steps[1..], buffer)
  }

  lemma {:induction false} InvSchedule(s: State, steps: seq<Step>, buffer: nat)
    requires Inv(s) && Schedule(s, steps, buffer) && QuietSchedule(s, steps, buffer)
    ensures Inv(Final(s, steps, buffer))
    decreases |steps|
  {
    if steps != [] {
      InvStep(s, steps[0], buffer);
      InvSchedule(Apply(s, steps[0], buffer), steps[1..], buffer);
    }
  }

  /** The states the daemon can reach when every reset is quiet. */
  ghost predicate Reachable(s: State, max: int, buffer: nat) {
    exists steps :: Schedule(Init(max), steps, buffer) && QuietSchedule(Init(max), steps, buffer)
                    && Final(Init(max), steps, buffer) == s
  }

  lemma ReachableInv(s: State, max: int, buffer: nat)
    requires Reachable(s, max, buffer)
    ensures Inv(s)
  {
    var steps :| Schedule(Init(max), steps, buffer) && QuietSchedule(Init(max), steps, buffer)
                 && Final(Init(max), steps, buffer) == s;
    InitInv(max);
    InvSchedule(Init(max), steps, buffer);
  }

  // ---------------------------------------------------------------- what the runs guarantee

  /** No slot leaks: runningWorkers is the number of slot-holding goroutines plus the
      automation reservations, so it is 0 again once there are none. */
  lemma NoSlotLeaks(s: State, max: int, buffer: nat)
    requires Reachable(s, max, buffer)
    ensures s.sh.gate.running == |Holders(s.threads)| + |s.sh.roster.automation|
    ensures Holders(s.threads) == {} && s.sh.roster.automation == {} ==> s.sh.gate.running == 0
  {
    ReachableInv(s, max, buffer);
  }

  /** The `> 0` guard of releaseWorkerSlot never hides an underflow. */
  lemma GuardNeverHidesUnderflow(s: State, t: Tid, max: int, buffer: nat)
    requires Reachable(s, max, buffer) && t in s.threads && s.threads[t].HoldsSlot()
    ensures s.sh.gate.running > 0
  {
    ReachableInv(s, max, buffer);
    assert t in Holders(s.threads);
  }

  /** A step that raises runningWorkers leaves it within the limit of that moment, and is
      one of the two acquires; this needs no assumption about how the state came about. */
  lemma RaisesStayWithinLimit(s: State, st: Step, buffer: nat)
    requires Enabled(s, st, buffer) && Apply(s, st, buffer).sh.gate.running > s.sh.gate.running
    ensures var g := Apply(s, st, buffer).sh.gate; g.running == s.sh.gate.running + 1 <= g.max == s.sh.gate.max
    ensures st.Dispatch? || (st.Run? && s.threads[st.t].Res? && s.threads[st.t].r.ResFits?)
  {
    if st.Run? {
      SectionRaises(s.sh, s.h, s.threads[st.t]);
    } else if st.Dispatch? {
      DispatchRaises(s, st.t);
    }
  }

  lemma SectionRaises(sh: Shared, h: History, pc: Pc)
    ensures var g := RunPc(sh, h, pc).sh.gate;
            g.running > sh.gate.running ==>
              g.running == sh.gate.running + 1 <= g.max == sh.gate.max && pc.Res? && pc.r.ResFits?
  {
  }

  lemma DispatchRaises(s: State, t: Tid)
    requires Enabled(s, Dispatch(t), 0)
    ensures var g := RunDispatcher(s, t).sh.gate;
            g.running > s.sh.gate.running ==> g.running == s.sh.gate.running + 1 <= g.max == s.sh.gate.max
  {
  }

  /** Every active id has exactly one owner, a goroutine, a place in the queue, the dispatcher
      or a reservation, and owners own active ids only. So no task is queued twice, run by two
      workers, or queued while held, run or reserved. */
  lemma OneClaimPerTask(s: State, max: int, buffer: nat)
    requires Reachable(s, max, buffer)
    ensures Partitioned(s)
    ensures forall i, j :: 0 <= i < j < |s.sh.queue| ==> s.sh.queue[i].id != s.sh.queue[j].id
    ensures forall i :: 0 <= i < |s.sh.queue| ==> Owns(s, Place(s.h.taken + i), s.sh.queue[i].id)
  {
    ReachableInv(s, max, buffer);
    assert forall i :: 0 <= i < |s.sh.queue| ==> Owns(s, Place(s.h.taken + i), s.sh.queue[i].id);
  }

  /** A job runs under the one context of the activation that queued its item; if that
      activation is over, the context is cancelled or its deactivate is about to cancel it. */
  lemma JobsKeepTheirGeneration(s: State, t: Tid, max: int, buffer: nat)
    requires Reachable(s, max, buffer) && t in s.threads && s.threads[t].Job? && s.threads[t].j.JobRun?
    ensures var c, g := s.threads[t].j.ctx, s.threads[t].j.item.generation;
            && StampedBy(s.h.stamp, c, g)
            && (forall c' :: StampedBy(s.h.stamp, c', g) ==> c' == c)
            && (s.sh.board.Current(g) || Retired(s, c))
  {
    ReachableInv(s, max, buffer);
    assert PcStamped(s.h.stamp, s.threads[t]);
  }

  /** No lost wakeup: while the dispatcher sleeps on an open channel, no slot has been given
      back and the limit has not risen since it looked, and every run that it saw listed and
      that has ended since still owes its notify. Once none is owed, the room it looked for is
      still taken by running workers and listed runs. */
  lemma NoLostWakeup(s: State, max: int, buffer: nat)
    requires Reachable(s, max, buffer) && s.disp.Parked? && s.disp.chan == s.sh.gate.wake
    ensures s.disp.seen.running + s.disp.seen.extra >= s.disp.seen.max
    ensures s.sh.gate.running >= s.disp.seen.running && s.sh.gate.max <= s.disp.seen.max
    ensures s.sh.gate.running + s.disp.seen.extra >= s.sh.gate.max
    ensures forall id :: id in s.disp.seen.ids && id !in s.sh.agentRuns ==> OwesNotify(s.threads, id)
    ensures (forall t :: t in s.threads ==> !s.threads[t].AgentOwes?) ==>
              s.disp.seen.ids <= s.sh.agentRuns && s.sh.gate.running + |s.sh.agentRuns| >= s.sh.gate.max
  {
    ReachableInv(s, max, buffer);
    if forall t :: t in s.threads ==> !s.threads[t].AgentOwes? {
      forall id | id in s.disp.seen.ids
        ensures id in s.sh.agentRuns
      {
        assert id !in s.sh.agentRuns ==> OwesNotify(s.threads, id);
      }
      assert |s.sh.agentRuns| == |s.disp.seen.ids| + |s.sh.agentRuns - s.disp.seen.ids|;
    }
  }

  // ---------------------------------------------------------------- first in, first out

  function OfGeneration(items: seq<Item>, g: nat): seq<Item> {
    if items == [] then [] else
    var last := items[|items| - 1];
    OfGeneration(items[..|items| - 1], g) + if last.generation == g then [last] else []
  }

  function Pick(items: seq<Item>, at: seq<int>): seq<Item>
    requires forall i :: 0 <= i < |at| ==> 0 <= at[i] < |items|
  {
    seq(|at|, i requires 0 <= i < |at| => items[at[i]])
  }

  /** `xs` is `ys` with some elements left out. */
  predicate Subsequence(xs: seq<Item>, ys: seq<Item>)
    decreases |ys|
  {
    || xs == []
    || (ys != [] && xs[|xs| - 1] == ys[|ys| - 1] && Subsequence(xs[..|xs| - 1], ys[..|ys| - 1]))
    || (ys != [] && Subsequence(xs, ys[..|ys| - 1]))
  }

  lemma SubsequenceGrows(xs: seq<Item>, ys: seq<Item>, y: Item)
    requires Subsequence(xs, ys)
    ensures Subsequence(xs + [y], ys + [y]) && Subsequence(xs, ys + [y])
  {
    assert (xs + [y])[..|xs|] == xs && (ys + [y])[..|ys|] == ys;
  }

  predicate Increasing(at: seq<int>, n: nat) {
    (forall i :: 0 <= i < |at| ==> 0 <= at[i] < n) && (forall i, j :: 0 <= i < j < |at| ==> at[i] < at[j])
  }

  lemma {:induction false} IncreasingPicksAreSubsequence(items: seq<Item>, at: seq<int>, g: nat)
    requires Increasing(at, |items|)
    ensures Subsequence(OfGeneration(Pick(items, at), g), OfGeneration(items, g))
    decreases |items|
  {
    if at != [] {
      assert 0 <= at[0] < |items|;
      var n, m := |items| - 1, |at| - 1;
      if at[m] == n {
        IncreasingPicksAreSubsequence(items[..n], at[..m], g);
        PicksTheLast(items, at, g);
      } else {
        IncreasingPicksAreSubsequence(items[..n], at, g);
        PicksAnother(items, at, g);
      }
    }
  }

  lemma PicksTheLast(items: seq<Item>, at: seq<int>, g: nat)
    requires at != [] && items != [] && Increasing(at, |items|) && at[|at| - 1] == |items| - 1
    requires Subsequence(OfGeneration(Pick(items[..|items| - 1], at[..|at| - 1]), g),
                         OfGeneration(items[..|items| - 1], g))
    ensures Subsequence(OfGeneration(Pick(items, at), g), OfGeneration(items, g))
  {
    var n, m := |items| - 1, |at| - 1;
    PickedLast(items, at, g);
    SubsequenceGrows(OfGeneration(Pick(items[..n], at[..m]), g), OfGeneration(items[..n], g), items[n]);
  }

  lemma PicksAnother(items: seq<Item>, at: seq<int>, g: nat)
    requires items != [] && Increasing(at, |items| - 1)
    requires Subsequence(OfGeneration(Pick(items[..|items| - 1], at), g), OfGeneration(items[..|items| - 1], g))
    ensures Increasing(at, |items|) && Subsequence(OfGeneration(Pick(items, at), g), OfGeneration(items, g))
  {
    var n := |items| - 1;
    PickedFront(items, at);
    LastOfGeneration(items, g);
    SubsequenceGrows(OfGeneration(Pick(items, at), g), OfGeneration(items[..n], g), items[n]);
  }

  lemma PickedFront(items: seq<Item>, at: seq<int>)
    requires items != [] && forall i :: 0 <= i < |at| ==> 0 <= at[i] < |items| - 1
    ensures Pick(items, at) == Pick(items[..|items| - 1], at)
  {
  }

  lemma LastOfGeneration(items: seq<Item>, g: nat)
    requires items != []
    ensures var n := |items| - 1;
            OfGeneration(items, g)
            == if items[n].generation == g then OfGeneration(items[..n], g) + [items[n]]
               else OfGeneration(items[..n], g)
  {
    assert OfGeneration(items[..|items| - 1], g) + [] == OfGeneration(items[..|items| - 1], g);
  }

  lemma PickedLast(items: seq<Item>, at: seq<int>, g: nat)
    requires at != [] && items != [] && at[|at| - 1] == |items| - 1
    requires forall i :: 0 <= i < |at| ==> 0 <= at[i] < |items|
    requires forall i :: 0 <= i < |at| - 1 ==> at[i] < |items| - 1
    ensures var n, m := |items| - 1, |at| - 1;
            var xs, ys := OfGeneration(Pick(items[..n], at[..m]), g), OfGeneration(items[..n], g);
            && OfGeneration(Pick(items, at), g) == (if items[n].generation == g then xs + [items[n]] else xs)
            && OfGeneration(items, g) == (if items[n].generation == g then ys + [items[n]] else ys)
  {
    var n, m := |items| - 1, |at| - 1;
    LastOfGeneration(items, g);
    PickParts(items, at);
    LastOfGeneration(Pick(items, at), g);
  }

  lemma PickParts(items: seq<Item>, at: seq<int>)
    requires at != [] && items != [] && at[|at| - 1] == |items| - 1
    requires forall i :: 0 <= i < |at| ==> 0 <= at[i] < |items|
    requires forall i :: 0 <= i < |at| - 1 ==> at[i] < |items| - 1
    ensures var n, m := |items| - 1, |at| - 1;
            && |Pick(items, at)| == m + 1 && Pick(items, at)[m] == items[n]
            && Pick(items, at)[..m] == Pick(items[..n], at[..m])
  {
  }

  /** For each generation, the tasks granted a slot by the dispatcher are a subsequence of
      the tasks enqueued: whatever SetMaxWorkers does, no task overtakes an earlier one. */
  lemma NoOvertaking(s: State, g: nat, max: int, buffer: nat)
    requires Reachable(s, max, buffer)
    ensures forall i :: 0 <= i < |s.h.granted| ==> 0 <= s.h.granted[i] < |s.h.enqueued|
    ensures Subsequence(OfGeneration(Pick(s.h.enqueued, s.h.granted), g), OfGeneration(s.h.enqueued, g))
  {
    ReachableInv(s, max, buffer);
    IncreasingPicksAreSubsequence(s.h.enqueued, s.h.granted, g);
  }

  // ---------------------------------------------------------------- deactivate's reset

  /** The reset keeps the invariants exactly when the active set is still empty. */
  lemma ResetKeepsInvIffEmpty(s: State, t: Tid, buffer: nat)
    requires Inv(s) && t in s.threads && s.threads[t] == Dea(DeaEmpty)
    ensures Inv(Apply(s, Run(t), buffer)) <==> s.sh.roster.active == {}
  {
    var s' := Apply(s, Run(t), buffer);
    if s.sh.roster.active == {} {
      InvStep(s, Run(t), buffer);
    } else {
      var id :| id in s.sh.roster.active;
      var o :| Owns(s, o, id);
      if o == Reservation {
        HoldersMoved(s.threads, t, None);
        assert |s.sh.roster.automation| > 0;
      } else {
        assert Owns(s', o, id);
        assert id !in s'.sh.roster.active;
      }
    }
  }

  /** A reservation made between deactivate's empty check and its reset. */
  function LeakOpening(): seq<Step> {
    [Activate(0), Deactivate(1), Run(1), Run(1), Call(2, Res(ResStart("A")))]
  }

  function LeakReservation(): seq<Step> { [Run(2), Run(2), Run(2), Run(2), Run(2), Run(2), Run(2), Run(2), Run(2)] }

  function LeakEnding(): seq<Step> { [Run(1), Call(3, Rel(RelStart("A"))), Run(3)] }

  /** A deactivate that has seen the active set empty, and what else is going on. */
  function AtReset(running: int, reserved: set<TaskId>, threads: map<Tid, Pc>): State {
    State(Shared(Gate(1, running, 0), Roster(reserved, reserved), Board(false, 1, 0), {0}, false, [], {}),
          threads[1 := Dea(DeaEmpty)], Idle, History([], 0, [], map[0 := 1]))
  }

  lemma {:induction false} SchedulesJoin(s: State, a: seq<Step>, b: seq<Step>, buffer: nat)
    requires Schedule(s, a, buffer) && Schedule(Final(s, a, buffer), b, buffer)
    ensures Schedule(s, a + b, buffer) && Final(s, a + b, buffer) == Final(Final(s, a, buffer), b, buffer)
    decreases |a|
  {
    if a == [] {
      assert a + b == b;
    } else {
      SchedulesJoin(Apply(s, a[0], buffer), a[1..], b, buffer);
      assert (a + b)[1..] == a[1..] + b;
    }
  }

  lemma LeakOpens()
    ensures Schedule(Init(1), LeakOpening(), 1)
    ensures Final(Init(1), LeakOpening(), 1) == AtReset(0, {}, map[2 := Res(ResStart("A"))])
  {
    var s := Final(Init(1), LeakOpening(), 1);
    assert s.threads == map[1 := Dea(DeaEmpty), 2 := Res(ResStart("A"))];
  }

  lemma {:induction false} RunsAlone(s: State, t: Tid, pcs: seq<Pc>, buffer: nat)
    requires pcs != [] && t in s.threads && s.threads[t] == pcs[0] && !s.disp.HoldsGateLock()
    requires forall i :: 0 <= i < |pcs| ==> pcs[i].Res?
    requires forall i :: 0 <= i < |pcs| - 1 ==> RunPc(s.sh, s.h, pcs[i]) == Effect(s.sh, Some(pcs[i + 1]), s.h)
    ensures var steps := seq(|pcs| - 1, _ => Run(t));
            Schedule(s, steps, buffer) && Final(s, steps, buffer) == s.(threads := s.threads[t := pcs[|pcs| - 1]])
    decreases |pcs|
  {
    var steps := seq(|pcs| - 1, _ => Run(t));
    if |pcs| == 1 {
      assert s.threads[t := pcs[0]] == s.threads;
    } else {
      assert RunPc(s.sh, s.h, pcs[0]) == Effect(s.sh, Some(pcs[1]), s.h);
      var s' := Apply(s, Run(t), buffer);
      RunsAlone(s', t, pcs[1..], buffer);
      assert steps[1..] == seq(|pcs| - 2, _ => Run(t));
      assert s'.threads[t := pcs[|pcs| - 1]] == s.threads[t := pcs[|pcs| - 1]];
    }
  }

  lemma LeakAsks()
    ensures var s := AtReset(0, {}, map[2 := Res(ResStart("A"))]);
            var steps := seq(6, _ => Run(2));
            Schedule(s, steps, 1) && Final(s, steps, 1) == AtReset(0, {}, map[2 := Res(ResFits("A", 0))])
  {
    var s := AtReset(0, {}, map[2 := Res(ResStart("A"))]);
    var none: set<TaskId> := {};
    assert none - none - {""} == none;
    var pcs := [Res(ResStart("A")), Res(ResFree("A")), Res(ResNoRun("A")), Res(ResListed("A", {})),
                Res(ResExtra("A", 0)), Res(ResCounted("A", 0, 0)), Res(ResFits("A", 0))];
    RunsAlone(s, 2, pcs, 1);
  }

  lemma {:induction false} Along(states: seq<State>, steps: seq<Step>, buffer: nat)
    requires |states| == |steps| + 1
    requires forall i :: 0 <= i < |steps| ==> Leads(states[i], steps[i], states[i + 1], buffer)
    ensures Schedule(states[0], steps, buffer) && Final(states[0], steps, buffer) == states[|steps|]
    decreases |steps|
  {
    if steps != [] {
      assert Leads(states[0], steps[0], states[0 + 1], buffer);
      forall i | 0 <= i < |steps| - 1
        ensures Leads(states[1..][i], steps[1..][i], states[1..][i + 1], buffer)
      {
        assert Leads(states[i + 1], steps[i + 1], states[i + 1 + 1], buffer);
      }
      Along(states[1..], steps[1..], buffer);
    }
  }

  predicate Leads(s: State, st: Step, s': State, buffer: nat) { Enabled(s, st, buffer) && Apply(s, st, buffer) == s' }

  function LeakWay(): seq<State> {
    [AtReset(0, {}, map[2 := Res(ResFits("A", 0))]), AtReset(1, {}, map[2 := Res(ResHolding("A"))]),
     AtReset(1, {}, map[2 := Res(ResBounded("A", 1))]), AtReset(1, {"A"}, map[])]
  }

  lemma LeakSteps()
    ensures Leads(LeakWay()[0], Run(2), LeakWay()[1], 1) && Leads(LeakWay()[1], Run(2), LeakWay()[2], 1)
  {
  }

  lemma LeakLastStep()
    ensures Leads(LeakWay()[2], Run(2), LeakWay()[3], 1)
  {
    assert Apply(LeakWay()[2], Run(2), 1).threads == map[1 := Dea(DeaEmpty)];
  }

  lemma LeakTakes()
    ensures var s := AtReset(0, {}, map[2 := Res(ResFits("A", 0))]);
            var steps := [Run(2), Run(2), Run(2)];
            Schedule(s, steps, 1) && Final(s, steps, 1) == AtReset(1, {"A"}, map[])
  {
    LeakSteps();
    LeakLastStep();
    Along(LeakWay(), [Run(2), Run(2), Run(2)], 1);
  }

  lemma LeakReserves()
    ensures var s := AtReset(0, {}, map[2 := Res(ResStart("A"))]);
            Schedule(s, LeakReservation(), 1) && Final(s, LeakReservation(), 1) == AtReset(1, {"A"}, map[])
  {
    LeakAsks();
    LeakTakes();
    var asks := seq(6, _ => Run(2));
    SchedulesJoin(AtReset(0, {}, map[2 := Res(ResStart("A"))]), asks, [Run(2), Run(2), Run(2)], 1);
    assert LeakReservation() == asks + [Run(2), Run(2), Run(2)];
  }

  lemma LeakEnds()
    ensures var s := AtReset(1, {"A"}, map[]); Schedule(s, LeakEnding(), 1)
    ensures var s := Final(AtReset(1, {"A"}, map[]), LeakEnding(), 1);
            s.threads == map[] && s.sh.roster == Roster({}, {}) && s.sh.queue == [] && s.disp == Idle
            && s.sh.gate.running == s.sh.gate.max == 1
  {
  }

  /** The reservation disappears, its later release finds nothing to release, and with the
      limit at 1 the only slot is gone although no goroutine, queue entry or reservation is
      left. */
  lemma ResetCanLeakASlot()
    ensures var steps := LeakOpening() + LeakReservation() + LeakEnding();
            && Schedule(Init(1), steps, 1)
            && var s := Final(Init(1), steps, 1);
               && s.threads == map[] && s.sh.roster == Roster({}, {}) && s.sh.queue == [] && s.disp == Idle
               && s.sh.gate.running == s.sh.gate.max == 1
  {
    LeakOpens();
    LeakReserves();
    LeakEnds();
    SchedulesJoin(Init(1), LeakOpening(), LeakReservation(), 1);
    SchedulesJoin(Init(1), LeakOpening() + LeakReservation(), LeakEnding(), 1);
  }
}
