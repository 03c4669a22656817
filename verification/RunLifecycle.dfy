/** The race to end one agent run, as gui/app/agent_run.go, agent_cancel.go, agent_service.go
    and agent_recovery.go run it. */
module RunLifecycle {
  import opened Wrappers

  // The run's natural exit, any number of CancelRun and board-switch callers, the daemon's
  // context watcher and the recovered-run monitor all try to write its terminal record.
  // A step is one lock section, channel operation, file append or edit.

  type Tid = nat

  /** What a record can say, and what AgentStatus can. */
  datatype Status = Pending | Running | Success | Failed | Cancelled | Lost | Interrupted | NeedsUser | Blank

  /** Who started the run: a direct call that holds a worker reservation, the daemon's
      RunQueuedAgentSync, or recovery adopting a process that outlived the last session. */
  datatype Origin = Direct | Queued | Adopted

  /** ar.finishOnce. A second caller of a busy Once waits for the first to finish. */
  datatype Once = Fresh | Busy(t: Tid) | Closed

  /** The entry of AgentService.active for the run's task. */
  datatype Entry = Mine | Vacant | Other

  /** runGoroutine, ExitSpawn and ExitMark being its OnStarted callback; on the daemon path
      RunQueuedAgentSync continues in the same goroutine. */
  datatype ExitPc =
    | ExitStart | ExitSpawn | ExitMark | ExitRunning | ExitCheck(outcome: Status) | ExitClose | MainCheck | MainStop
  {
    predicate BeforeCheck() { ExitStart? || ExitSpawn? || ExitMark? || ExitRunning? || ExitCheck? }
  }

  /** The context watcher of RunQueuedAgentSync. */
  datatype WatchPc = WatchWait | WatchMark | WatchKill

  /** CancelRun, and one iteration of cancelRunsForBoard. */
  datatype CancelPc = CancelLookup | CancelVerify | CancelMark | CancelGrace | CancelHard | CancelWait

  /** The monitor of an adopted run. The last four follow a log in which it found a record. */
  datatype MonitorPc =
    | MonPoll | MonProbe | MonGet | MonAppendLost | MonEditLost | MonClose | MonCheck | MonRemove
    | MonFound(read: Status) | MonFoundClose(read: Status) | MonFoundRemove(read: Status) | MonSync(read: Status)

  /** A recovery pass at this run, from its reading of the log on. The pass that an activation
      makes does not ask what is tracked; the periodic one does. `verdict` is what it will
      call the run if it has to end it. */
  datatype RecoveryPc =
    | RecRead(skipTracked: bool, verdict: Status) | RecLook(verdict: Status) | RecProbe(verdict: Status)
    | RecAppend(verdict: Status) | RecEdit(read: Status)

  /** What recordTerminal does to AgentStatus. */
  datatype Write = Keep | Put(status: Status)

  /** What recordTerminal looks at: AgentStatus, and whether this is a review whose task is in
      ready and tagged review-failed. */
  datatype Glance = Glance(cursor: Status, handoff: bool)

  /** The two carve-outs, both for the statuses that an exit maps to. */
  function Carved(g: Glance, status: Status): Write {
    if (status == Success || status == Failed) && g.cursor == NeedsUser then Keep
    else if status == Success && g.handoff then Put(Blank)
    else Put(status)
  }

  /** recordTerminal: entering finishOnce, then the statements of its body. */
  datatype Phase = Enter | Append | Look | Edit(write: Write) | Delete | Release | Finish

  datatype After = AfterExit | AfterMain | AfterCancel | AfterMonitor

  datatype Pc =
    | Exit(e: ExitPc)
    | Watch(w: WatchPc)
    | Canc(c: CancelPc)
    | Mon(m: MonitorPc)
    | Rec(r: RecoveryPc)
    | Record(phase: Phase, status: Status, after: After)
    | Gone
  {
    predicate InBody() { Record? && !phase.Enter? }

    /** This goroutine has marked the run and will call finishCancelled itself. */
    predicate WillCancel() {
      || (Canc? && (c.CancelGrace? || c.CancelHard? || c.CancelWait?))
      || (Record? && phase.Enter? && after.AfterCancel?)
    }
  }

  datatype Writer = Body | Monitor | Recovery

  /** A `finished` line of this run, and who appended it. */
  datatype Line = Line(writer: Writer, status: Status)

  /** The activeRun's fields, its entry, the process and its doings, the run's `finished`
      lines, and AgentStatus as far as this run and recovery write it. */
  datatype Shared = Shared(
    cancelled: bool,
    doneClosed: bool,
    once: Once,
    entry: Entry,
    ctxDone: bool,
    watchStopped: bool,
    alive: bool,
    handoff: bool,
    log: seq<Line>,
    agentStatus: Status)
  {
    function Logged(writer: Writer, status: Status): Shared { this.(log := log + [Line(writer, status)]) }
  }

  /** What the exit path saw when it looked at Cancelled. */
  datatype Saw = NotYet | SawCancelled | SawRunning

  /** What happened to the task's entry: an older run's body deleted this run's (Evicted), the
      monitor removed it, this run's body deleted whatever was there, another run registered,
      or that run's entry went away. */
  datatype Turn = Evicted | Removed | Deleted | Registered | Ended

  /** What the exit path saw; terminal bodies begun and what the body recorded and looked at;
      ReleaseWorker calls; entries of other runs that the body deleted; whether the monitor
      found the entry gone, and the lines it added for that; the last AgentStatus written by
      anyone but the body since the body settled it; the recovery passes that read a log
      without a record and then found the process dead and no entry, and those of them that
      have appended; whether some pass did not ask for the entry; and the entry's turns. */
  datatype History = History(
    saw: Saw,
    bodies: nat,
    record: Option<Status>,
    look: Option<Glance>,
    releases: nat,
    evictions: nat,
    orphaned: bool,
    monitorLines: nat,
    late: Option<Status>,
    straddlers: set<Tid>,
    appended: set<Tid>,
    blind: bool,
    trail: seq<Turn>)
  {
    function Turned(t: Turn): History { this.(trail := trail + [t]) }
  }

  datatype State = State(origin: Origin, sh: Shared, threads: map<Tid, Pc>, h: History)

  /** Goroutine 0 ends the run: runGoroutine, or the monitor of an adopted run. */
  const EXIT: Tid := 0
  const WATCH: Tid := 1

  function NoHistory(): History { History(NotYet, 0, None, None, 0, 0, false, 0, None, {}, {}, false, []) }

  function Init(origin: Origin): State {
    State(origin,
          Shared(false, false, Fresh, Mine, false, false, true, false, [],
                 if origin == Adopted then Running else Pending),
          match origin
          case Direct => map[EXIT := Exit(ExitStart)]
          case Queued => map[EXIT := Exit(ExitStart), WATCH := Watch(WatchWait)]
          case Adopted => map[EXIT := Mon(MonPoll)],
          NoHistory())
  }

  /** The environment's steps: a cancel or a recovery pass begins, the agent asks for the user
      or fails the review, the run exits, the process dies, the daemon's context ends, an older
      run's body deletes this run's entry, other runs come and go in its place. A pass that
      finds the process alive and adopts it again is among the others. */
  datatype Step =
    | Cancel(t: Tid)
    | Recover(t: Tid, skipTracked: bool, verdict: Status)
    | Run(t: Tid)
    | Outcome(status: Status)
    | Alternative(t: Tid)
    | CancelContext
    | Die
    | AskUser
    | FailReview
    | Evict
    | OtherStarts
    | OtherEnds

  predicate Enabled(s: State, st: Step) {
    match st
    case Cancel(t) => t !in s.threads
    case Recover(t, _, verdict) => t !in s.threads && t > WATCH && (verdict == Lost || verdict == Interrupted)
    case Run(t) => t in s.threads && CanRun(s.sh, s.threads[t])
    case Outcome(status) => AgentRuns(s) && !s.threads[EXIT].Mon? && (status.Success? || status.Failed?)
    case Alternative(t) => t in s.threads && CanChoose(s, s.threads[t])
    case CancelContext => true
    case Die => true
    case AskUser => s.sh.alive && AgentRuns(s)
    case FailReview => s.sh.alive && AgentRuns(s)
    case Evict => s.sh.entry == Mine
    case OtherStarts => s.sh.entry == Vacant
    case OtherEnds => s.sh.entry == Other
  }

  predicate AgentRuns(s: State) {
    EXIT in s.threads && (s.threads[EXIT] == Exit(ExitRunning) || s.threads[EXIT].Mon?)
  }

  predicate CanRun(sh: Shared, pc: Pc) {
    match pc
    case Exit(e) => !e.ExitRunning?
    case Watch(w) => (w.WatchWait? ==> sh.ctxDone) && (w.WatchKill? ==> sh.doneClosed)
    case Canc(c) => (c.CancelGrace? || c.CancelWait? ==> sh.doneClosed)
    case Mon(_) => true
    case Rec(r) => r.RecProbe? ==> !sh.alive
    case Record(phase, _, _) => !(phase.Enter? && sh.once.Busy?)
    case Gone => false
  }

  /** The second outcome of a step that has two: the watcher is told to stop, a recovered
      process fails its identity check, the SIGTERM grace expires, the process does not
      start, the monitor finds a later run in the log, a recovery pass finds the process
      alive or finds that a later run is the task's latest. */
  predicate CanChoose(s: State, pc: Pc) {
    match pc
    case Watch(w) => w.WatchWait? && s.sh.watchStopped
    case Canc(c) => c.CancelGrace? || (c.CancelVerify? && s.origin == Adopted)
    case Exit(e) => e.ExitSpawn?
    case Mon(m) => m.MonPoll? && Registered in s.h.trail
    case Rec(r) => r.RecProbe? || r.RecEdit?
    case _ => false
  }

  datatype Effect = Effect(sh: Shared, pc: Pc, h: History)

  /** Somebody other than the body writes AgentStatus. */
  function Edited(sh: Shared, h: History, status: Status, pc: Pc): Effect {
    Effect(sh.(agentStatus := status), pc, h.(late := Some(status)))
  }

  function RunExit(o: Origin, sh: Shared, h: History, e: ExitPc): Effect {
    match e
    case ExitStart =>
      if sh.cancelled then Effect(sh, Exit(ExitClose), h.(saw := SawCancelled)) else Effect(sh, Exit(ExitSpawn), h)
    case ExitSpawn => Effect(sh, Exit(if sh.cancelled then ExitRunning else ExitMark), h)
    case ExitMark => Edited(sh, h, Running, Exit(ExitRunning))
    case ExitRunning => Effect(sh, Exit(e), h)
    case ExitCheck(outcome) =>
      if sh.cancelled then Effect(sh, Exit(ExitClose), h.(saw := SawCancelled))
      else Effect(sh, Record(Enter, outcome, AfterExit), h.(saw := SawRunning))
    case ExitClose => Effect(sh.(doneClosed := true), if o == Queued then Exit(MainCheck) else Gone, h)
    case MainCheck => Effect(sh, if sh.cancelled then Record(Enter, Cancelled, AfterMain) else Exit(MainStop), h)
    case MainStop => Effect(sh.(watchStopped := true), Gone, h)
  }

  function RunWatch(sh: Shared, h: History, w: WatchPc): Effect {
    match w
    case WatchWait => Effect(sh, Watch(WatchMark), h)
    case WatchMark => Effect(sh.(cancelled := true), Watch(WatchKill), h)
    case WatchKill => Effect(sh, Gone, h)
  }

  function RunCancel(o: Origin, sh: Shared, h: History, c: CancelPc): Effect {
    match c
    case CancelLookup => Effect(sh, if sh.entry == Mine then Canc(CancelVerify) else Gone, h)
    case CancelVerify => Effect(sh, Canc(CancelMark), h)
    case CancelMark => Effect(sh.(cancelled := true), Canc(CancelGrace), h)
    case CancelGrace => Effect(sh, Record(Enter, Cancelled, AfterCancel), h)
    // after SIGKILL, CancelRun closes Done itself when no goroutine is attached to do it
    case CancelHard => Effect(sh.(doneClosed := sh.doneClosed || o == Adopted), Canc(CancelWait), h)
    case CancelWait => Effect(sh, Record(Enter, Cancelled, AfterCancel), h)
  }

  /** Removal by pointer. */
  function Remove(sh: Shared, h: History, pc: Pc): Effect {
    if sh.entry == Mine then Effect(sh.(entry := Vacant), pc, h.Turned(Removed)) else Effect(sh, pc, h)
  }

  function RunMonitor(sh: Shared, h: History, m: MonitorPc): Effect {
    match m
    case MonPoll => Effect(sh, if sh.log != [] then Mon(MonFound(sh.log[|sh.log| - 1].status)) else Mon(MonProbe), h)
    case MonProbe => Effect(sh, Mon(if sh.alive then MonPoll else MonGet), h)
    case MonGet =>
      if sh.entry == Mine then Effect(sh, Mon(MonClose), h) else Effect(sh, Mon(MonAppendLost), h.(orphaned := true))
    case MonAppendLost => Effect(sh.Logged(Monitor, Lost), Mon(MonEditLost), h.(monitorLines := h.monitorLines + 1))
    case MonEditLost => Edited(sh, h, Lost, Gone)
    case MonClose => Effect(sh.(doneClosed := true), Mon(MonCheck), h)
    case MonCheck =>
      if sh.cancelled then Effect(sh, Gone, h.(saw := SawCancelled))
      else Effect(sh, Record(Enter, Lost, AfterMonitor), h.(saw := SawRunning))
    case MonRemove => Remove(sh, h, Gone)
    case MonFound(read) => Effect(sh, Mon(if sh.entry == Mine then MonFoundClose(read) else MonSync(read)), h)
    case MonFoundClose(read) => Effect(sh.(doneClosed := true), Mon(MonFoundRemove(read)), h)
    case MonFoundRemove(read) => Remove(sh, h, Mon(MonSync(read)))
    case MonSync(read) => Edited(sh, h, read, Gone)
  }

  function RunRecovery(sh: Shared, h: History, t: Tid, r: RecoveryPc): Effect {
    match r
    case RecRead(skipTracked, verdict) =>
      var h' := if skipTracked then h else h.(blind := true);
      if sh.log != [] then Effect(sh, Rec(RecEdit(sh.log[|sh.log| - 1].status)), h')
      else Effect(sh, Rec(if skipTracked then RecLook(verdict) else RecProbe(verdict)), h')
    case RecLook(verdict) => Effect(sh, if sh.entry == Mine then Gone else Rec(RecProbe(verdict)), h)
    case RecProbe(verdict) => Effect(sh, Rec(RecAppend(verdict)), h.(straddlers := h.straddlers + {t}))
    case RecAppend(verdict) =>
      Effect(sh.Logged(Recovery, verdict), Rec(RecEdit(verdict)), h.(appended := h.appended + {t}))
    case RecEdit(read) => Edited(sh, h, read, Gone)
  }

  function Continue(after: After): Pc {
    match after
    case AfterExit => Exit(ExitClose)
    case AfterMain => Exit(MainStop)
    case AfterCancel => Gone
    case AfterMonitor => Mon(MonRemove)
  }

  function RunRecord(o: Origin, sh: Shared, h: History, t: Tid, phase: Phase, status: Status, after: After): Effect {
    match phase
    case Enter =>
      if sh.once == Closed then Effect(sh, Continue(after), h)
      else Effect(sh.(once := Busy(t)), Record(Append, status, after), h.(bodies := h.bodies + 1))
    case Append => Effect(sh.Logged(Body, status), Record(Look, status, after), h.(record := Some(status)))
    case Look =>
      var g := Glance(sh.agentStatus, sh.handoff);
      Effect(sh, Record(Edit(Carved(g, status)), status, after),
             h.(look := Some(g), late := if Carved(g, status) == Keep then None else h.late))
    case Edit(write) =>
      if write.Put? then Effect(sh.(agentStatus := write.status), Record(Delete, status, after), h.(late := None))
      else Effect(sh, Record(Delete, status, after), h)
    // delete(s.active, ar.TaskID) goes by task, not by run
    case Delete =>
      Effect(sh.(entry := Vacant), Record(Release, status, after),
             h.Turned(Deleted).(evictions := h.evictions + if sh.entry == Other then 1 else 0))
    case Release =>
      Effect(sh, Record(Finish, status, after), if o == Direct then h.(releases := h.releases + 1) else h)
    case Finish => Effect(sh.(once := Closed), Continue(after), h)
  }

  function RunPc(o: Origin, sh: Shared, h: History, t: Tid, pc: Pc): Effect {
    match pc
    case Exit(e) => RunExit(o, sh, h, e)
    case Watch(w) => RunWatch(sh, h, w)
    case Canc(c) => RunCancel(o, sh, h, c)
    case Mon(m) => RunMonitor(sh, h, m)
    case Rec(r) => RunRecovery(sh, h, t, r)
    case Record(phase, status, after) => RunRecord(o, sh, h, t, phase, status, after)
    case Gone => Effect(sh, pc, h)
  }

  function Otherwise(pc: Pc): Pc {
    if pc == Canc(CancelGrace) then Canc(CancelHard) else if pc.Exit? then Exit(ExitRunning) else Gone
  }

  function Apply(s: State, st: Step): State
    requires Enabled(s, st)
  {
    match st
    case Cancel(t) => s.(threads := s.threads[t := Canc(CancelLookup)])
    case Recover(t, skipTracked, verdict) => s.(threads := s.threads[t := Rec(RecRead(skipTracked, verdict))])
    case Run(t) => After1(s, t)
    case Outcome(status) => s.(threads := s.threads[EXIT := Exit(ExitCheck(status))], sh := s.sh.(alive := false))
    case Alternative(t) => s.(threads := s.threads[t := Otherwise(s.threads[t])])
    case CancelContext => s.(sh := s.sh.(ctxDone := true))
    case Die => s.(sh := s.sh.(alive := false))
    case AskUser => s.(sh := s.sh.(agentStatus := NeedsUser), h := s.h.(late := Some(NeedsUser)))
    case FailReview => s.(sh := s.sh.(handoff := true))
    case Evict => s.(sh := s.sh.(entry := Vacant), h := s.h.Turned(Evicted))
    case OtherStarts => s.(sh := s.sh.(entry := Other), h := s.h.Turned(Registered))
    case OtherEnds => s.(sh := s.sh.(entry := Vacant), h := s.h.Turned(Ended))
  }

  function After1(s: State, t: Tid): State
    requires t in s.threads
  {
    With(s, t, RunPc(s.origin, s.sh, s.h, t, s.threads[t]))
  }

  function With(s: State, t: Tid, x: Effect): State { State(s.origin, x.sh, s.threads[t := x.pc], x.h) }

  // ---------------------------------------------------------------- the terminal body

  function PhaseNumber(phase: Phase): nat {
    match phase
    case Enter => 0
    case Append => 1
    case Look => 2
    case Edit(_) => 3
    case Delete => 4
    case Release => 5
    case Finish => 6
  }

  /** How far the one terminal body has got: 0 before it, 7 after it. */
  function Stage(s: State): nat {
    match s.sh.once
    case Fresh => 0
    case Busy(t) => if t in s.threads && s.threads[t].Record? then PhaseNumber(s.threads[t].phase) else 0
    case Closed => 7
  }

  /** finishOnce works: at most one goroutine is in the body, and the body was begun at
      most once. */
  ghost predicate OneBody(s: State) {
    && s.h.bodies == (if s.sh.once == Fresh then 0 else 1)
    && (s.sh.once.Busy? ==> s.sh.once.t in s.threads && s.threads[s.sh.once.t].InBody())
    && (forall t :: t in s.threads && s.threads[t].InBody() ==> s.sh.once == Busy(t))
  }

  /** What the body has done matches how far it has got. */
  ghost predicate BodyWrote(s: State) {
    && (s.h.record.Some? <==> Stage(s) >= 2)
    && (2 <= Stage(s) <= 6 ==> s.h.record == Some(s.threads[s.sh.once.t].status))
    && (s.h.record.Some? ==> Line(Body, s.h.record.value) in s.sh.log)
    && (forall l :: l in s.sh.log && l.writer == Body ==> s.h.record == Some(l.status))
    && (forall i, j :: 0 <= i < j < |s.sh.log| && s.sh.log[i].writer == Body ==> s.sh.log[j].writer != Body)
    && s.h.releases == (if Stage(s) >= 6 && s.origin == Direct then 1 else 0)
  }

  // ---------------------------------------------------------------- the entry's turns

  function EntryAfter(trail: seq<Turn>): Entry {
    if trail == [] then Mine else if trail[|trail| - 1] == Registered then Other else Vacant
  }

  /** How often the body deleted an entry right after another run had registered. */
  function Evictions(trail: seq<Turn>): nat {
    if |trail| < 2 then 0
    else
      var n := |trail| - 1;
      Evictions(trail[..n]) + if trail[n - 1] == Registered && trail[n] == Deleted then 1 else 0
  }

  ghost predicate Turnover(s: State) {
    && s.sh.entry == EntryAfter(s.h.trail)
    && s.h.evictions == Evictions(s.h.trail)
    && (s.h.trail != [] ==> s.h.trail[0] == Evicted || s.h.trail[0] == Removed || s.h.trail[0] == Deleted)
    && (s.h.trail != [] && s.h.trail[0] == Deleted ==> Stage(s) >= 5 && s.h.evictions == 0)
    && (Stage(s) >= 5 <==> Deleted in s.h.trail)
    && s.h.evictions <= if Stage(s) >= 5 then 1 else 0
  }

  // ---------------------------------------------------------------- the log's lines

  ghost predicate Tally(s: State) {
    && |s.sh.log| == (if Stage(s) >= 2 then 1 else 0) + |s.h.appended| + s.h.monitorLines
    && s.h.appended <= s.h.straddlers
    && (forall l :: l in s.sh.log && l.writer == Recovery ==> s.h.appended != {})
    && (forall l :: l in s.sh.log && l.writer == Monitor ==> l.status == Lost)
    && (forall t :: t in s.h.straddlers ==> t in s.threads)
    && (forall t :: t in s.threads ==> (t in s.h.straddlers && t !in s.h.appended <==> Appending(s.threads[t])))
    && (forall t :: t in s.threads && s.threads[t].Rec? && t in s.h.straddlers ==>
        s.threads[t].r.RecAppend? || s.threads[t].r.RecEdit?)
    && (forall t :: t in s.threads && t in s.h.straddlers ==> s.threads[t].Rec? || s.threads[t].Gone?)
  }

  predicate Appending(pc: Pc) { pc.Rec? && pc.r.RecAppend? }

  /** A line that is not the body's comes first only if the entry was gone before the body's
      delete, or a pass did not ask for it. */
  ghost predicate BodyFirst(s: State) {
    && (forall t :: t in s.threads && s.threads[t].Rec? && (s.threads[t].r.RecProbe? || s.threads[t].r.RecAppend?) ==>
          s.h.blind || s.h.trail != [])
    && (forall t :: t in s.threads && s.threads[t] == Mon(MonAppendLost) ==> s.h.trail != [])
    && (s.sh.log != [] && s.sh.log[0].writer != Body ==> s.h.blind || (s.h.trail != [] && s.h.trail[0] != Deleted))
  }

  // ---------------------------------------------------------------- AgentStatus

  /** What AgentStatus is once the body is through with it. */
  function Ending(h: History): Status
    requires h.look.Some? && h.record.Some?
  {
    if h.late.Some? then h.late.value
    else match Carved(h.look.value, h.record.value)
      case Keep => NeedsUser
      case Put(status) => status
  }

  ghost predicate StatusKept(s: State) {
    && (s.h.look.Some? <==> Stage(s) >= 3)
    && (s.h.look.Some? ==> s.h.record.Some?)
    && (Stage(s) == 3 ==> s.threads[s.sh.once.t].phase == Edit(Carved(s.h.look.value, s.h.record.value)))
    && (Stage(s) >= 4 || (Stage(s) == 3 && Carved(s.h.look.value, s.h.record.value) == Keep) ==>
        s.sh.agentStatus == Ending(s.h))
  }

  /** What holds of every run, whoever started it. */
  ghost predicate Books(s: State) {
    OneBody(s) && BodyWrote(s) && Turnover(s) && Tally(s) && BodyFirst(s) && StatusKept(s)
  }

  // ---------------------------------------------------------------- runs

  predicate Schedule(s: State, steps: seq<Step>)
    decreases |steps|
  {
    steps != [] ==> Enabled(s, steps[0]) && Schedule(Apply(s, steps[0]), steps[1..])
  }

  function Final(s: State, steps: seq<Step>): State
    requires Schedule(s, steps)
    decreases |steps|
  {
    if steps == [] then s else Final(Apply(s, steps[0]), steps[1..])
  }

  ghost predicate Reachable(s: State, origin: Origin) {
    exists steps :: Schedule(Init(origin), steps) && Final(Init(origin), steps) == s
  }

  predicate AllGone(s: State) { forall t :: t in s.threads ==> s.threads[t] == Gone }
}
