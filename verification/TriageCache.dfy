/** The triage cache of BoardService (gui/app/board_service.go), and its races. */
module TriageCache {
  import opened Wrappers

  // Any number of Triage calls, invalidations and client swaps are interleaved between their
  // lock sections. The cache, its generation and their readers are guarded by triageMu. A
  // client swap holds triageMu throughout but publishes the new client in the middle, and
  // Triage takes its snapshot of the client under another lock, so it can see that one early.

  type Client = nat

  /** A loaded result: whose board it is of, and how many changes to it that reflects. */
  datatype Data = Data(client: Client, version: nat)

  /** What Triage returns: the list, or one of its two errors. */
  datatype Answer = Listed(data: Data) | NoBoard | LoadFailed

  /** The fields of the service. */
  datatype Service = Service(client: Option<Client>, cache: Option<Data>, generation: nat)
  {
    /** Both invalidations: the cache is dropped and the generation moves on. */
    function Invalidated(): Service { this.(cache := None, generation := generation + 1) }

    /** The last section of Triage's miss path: the result is kept unless it was overtaken. */
    function Stored(gen: nat, next: Data): Service { if generation != gen then this else this.(cache := Some(next)) }
  }

  class BoardService {
    var client: Option<Client>
    var triageCache: Option<Data>
    var triageGen: nat

    ghost function Contents(): Service
      reads this
    {
      Service(client, triageCache, triageGen)
    }

    constructor ()
      ensures Contents() == Service(None, None, 0)
    {
      client, triageCache, triageGen := None, None, 0;
    }

    method SetClient(c: Option<Client>)
      modifies this
      ensures Contents() == old(Contents()).(client := c).Invalidated()
    {
      client := c;
      triageCache := None;
      triageGen := triageGen + 1;
    }

    method ClearTriageCache()
      modifies this
      ensures Contents() == old(Contents()).Invalidated()
    {
      triageCache := None;
      triageGen := triageGen + 1;
    }

    /** Triage's first section: a hit, or the generation to come back with. */
    method ReadCache() returns (hit: Option<Data>, gen: nat)
      ensures hit == triageCache && gen == triageGen
    {
      if triageCache.Some? {
        return triageCache, triageGen;
      }
      return None, triageGen;
    }

    /** Triage's last section. */
    method StoreIfCurrent(gen: nat, next: Data) returns (ok: bool)
      modifies this
      ensures Contents() == old(Contents()).Stored(gen, next) && ok == (old(triageGen) == gen)
    {
      if triageGen != gen {
        return false;
      }
      triageCache := Some(next);
      return true;
    }

    /** A whole call that meets no other, so that its first turn is its last. What is listed
        is cached from then on; the loader is not asked while something is. */
    method Triage(load: Client -> Option<Data>) returns (r: Answer)
      modifies this
      ensures r == if old(triageCache).Some? then Listed(old(triageCache).value)
                   else if old(client).None? then NoBoard
                   else if load(old(client).value).None? then LoadFailed
                   else Listed(load(old(client).value).value)
      ensures Contents() == if r.Listed? then old(Contents()).(cache := Some(r.data)) else old(Contents())
    {
      var hit, gen := ReadCache();
      if hit.Some? {
        return Listed(hit.value);
      }
      var c := client;
      if c.None? {
        return NoBoard;
      }
      var next := load(c.value);
      if next.None? {
        return LoadFailed;
      }
      var ok := StoreIfCurrent(gen, next.value);
      assert ok;
      return Listed(next.value);
    }
  }

  // ---------------------------------------------------------------- the interleaving

  /** One Triage call, between its lock sections. */
  datatype Call =
    | Looping
    | Missed(gen: nat)
    | Snapped(gen: nat, client: Client)
    | Loaded(gen: nat, data: Data)
    | Returned(data: Data)

  /** Who holds triageMu for writing: nobody, or a client swap before or after it published. */
  datatype Swap = Free | Holding(next: Option<Client>) | Published

  /** `changes` counts the changes made to boards; `owed` are those for which the watcher has
      not invalidated the cache yet. */
  datatype State = State(s: Service, swap: Swap, calls: map<nat, Call>, changes: nat, owed: set<nat>)

  datatype Step =
    | Begin(t: nat)
    | Read(t: nat)
    | Snapshot(t: nat)
    | Load(t: nat)
    | Fail(t: nat)
    | Store(t: nat)
    | Lock(c: Option<Client>)
    | Publish
    | Unlock
    | Change
    | Clear(change: nat)

  function Start(): State { State(Service(None, None, 0), Free, map[], 0, {}) }

  predicate Enabled(st: State, step: Step) {
    match step
    case Begin(t) => t !in st.calls
    case Read(t) => t in st.calls && st.calls[t] == Looping && st.swap == Free
    case Snapshot(t) => t in st.calls && st.calls[t].Missed?
    case Load(t) => t in st.calls && st.calls[t].Snapped?
    case Fail(t) => t in st.calls && st.calls[t].Snapped?
    case Store(t) => t in st.calls && st.calls[t].Loaded? && st.swap == Free
    case Lock(_) => st.swap == Free
    case Publish => st.swap.Holding?
    case Unlock => st.swap == Published
    case Change => true
    case Clear(_) => st.swap == Free
  }

  function AfterRead(s: Service): Call { if s.cache.Some? then Returned(s.cache.value) else Missed(s.generation) }

  function Apply(st: State, step: Step): State
    requires Enabled(st, step)
  {
    match step
    case Begin(t) => st.(calls := st.calls[t := Looping])
    case Read(t) => st.(calls := st.calls[t := AfterRead(st.s)])
    case Snapshot(t) =>
      // without a client the call returns ErrNoBoard
      if st.s.client.None? then st.(calls := st.calls - {t})
      else st.(calls := st.calls[t := Snapped(st.calls[t].gen, st.s.client.value)])
    case Load(t) =>
      st.(calls := st.calls[t := Loaded(st.calls[t].gen, Data(st.calls[t].client, st.changes))])
    case Fail(t) => st.(calls := st.calls - {t})
    case Store(t) =>
      var gen, data := st.calls[t].gen, st.calls[t].data;
      st.(s := st.s.Stored(gen, data),
          calls := st.calls[t := if st.s.generation == gen then Returned(data) else Looping])
    case Lock(c) => st.(swap := Holding(c))
    case Publish => st.(s := st.s.(client := st.swap.next), swap := Published)
    case Unlock => st.(s := st.s.Invalidated(), swap := Free)
    case Change => st.(changes := st.changes + 1, owed := st.owed + {st.changes + 1})
    case Clear(k) => st.(s := st.s.Invalidated(), owed := st.owed - {k})
  }

  predicate Runs(st: State, steps: seq<Step>)
    decreases |steps|
  {
    steps == [] || (Enabled(st, steps[0]) && Runs(Apply(st, steps[0]), steps[1..]))
  }

  function Run(st: State, steps: seq<Step>): State
    requires Runs(st, steps)
    decreases |steps|
  {
    if steps == [] then st else Run(Apply(st, steps[0]), steps[1..])
  }

  // ---------------------------------------------------------------- the invariant

  /** Every change that the version misses is one the watcher still owes an invalidation for. */
  predicate Fresh(st: State, version: nat) {
    version <= st.changes && forall k :: version < k <= st.changes ==> k in st.owed
  }

  /** Of the client now published; nothing is said while a swap has published and not yet
      invalidated. */
  predicate Current(st: State, client: Client) { st.swap == Published || st.s.client == Some(client) }

  ghost predicate CallInv(st: State, call: Call) {
    match call
    case Missed(gen) => gen <= st.s.generation
    case Snapped(gen, client) => gen <= st.s.generation && (gen == st.s.generation ==> Current(st, client))
    case Loaded(gen, data) =>
      gen <= st.s.generation && (gen == st.s.generation ==> Current(st, data.client) && Fresh(st, data.version))
    case _ => true
  }

  ghost predicate Inv(st: State) {
    && (st.s.cache.Some? ==> Current(st, st.s.cache.value.client) && Fresh(st, st.s.cache.value.version))
    && (forall t :: t in st.calls ==> CallInv(st, st.calls[t]))
  }

  lemma StepKeepsInv(st: State, step: Step)
    requires Inv(st) && Enabled(st, step)
    ensures Inv(Apply(st, step))
  {
    var st' := Apply(st, step);
    forall t | t in st'.calls
      ensures CallInv(st', st'.calls[t])
    {
      assert t in st.calls ==> CallInv(st, st.calls[t]);
    }
  }

  lemma {:induction false} RunKeepsInv(st: State, steps: seq<Step>)
    requires Inv(st) && Runs(st, steps)
    ensures Inv(Run(st, steps))
    decreases |steps|
  {
    if steps != [] {
      StepKeepsInv(st, steps[0]);
      RunKeepsInv(Apply(st, steps[0]), steps[1..]);
    }
  }

  // ---------------------------------------------------------------- what holds in every run

  /** Whenever a reader can look, a cached result is of the client the service has, and
      reflects every change whose invalidation has happened; so once the watcher has caught
      up, it is exact. */
  lemma CacheIsCurrent(steps: seq<Step>)
    requires Runs(Start(), steps)
    ensures var st := Run(Start(), steps);
            st.s.cache.Some? && st.swap == Free ==>
              && st.s.client == Some(st.s.cache.value.client)
              && Fresh(st, st.s.cache.value.version)
              && (st.owed == {} ==> st.s.cache.value.version == st.changes)
  {
    var st := Run(Start(), steps);
    RunKeepsInv(Start(), steps);
    if st.s.cache.Some? && st.swap == Free && st.s.cache.value.version < st.changes {
      assert st.changes in st.owed;
    }
  }

  /** A Triage call that returns, from a hit or from a miss, returns a result of the current
      client that no invalidation has overtaken; an overtaken one is loaded again. */
  lemma ReturnsAreCurrent(steps: seq<Step>, step: Step, t: nat)
    requires Runs(Start(), steps) && Enabled(Run(Start(), steps), step) && (step == Read(t) || step == Store(t))
    ensures var st := Run(Start(), steps);
            var call := Apply(st, step).calls[t];
            && (call.Returned? ==> st.s.client == Some(call.data.client) && Fresh(st, call.data.version))
            && (step == Store(t) ==>
                  (call.Returned? <==> st.calls[t].gen == st.s.generation)
                  && (call.Returned? <==> Apply(st, step).s.cache == Some(st.calls[t].data) && call.Returned?)
                  && (!call.Returned? ==> call == Looping && Apply(st, step).s == st.s))
  {
    RunKeepsInv(Start(), steps);
  }

  /** Between a swap's publication and its invalidation, generation `gen` is doomed: by the
      next time anyone gets the lock, the generation has moved past it. */
  predicate Doomed(st: State, gen: nat) { gen < st.s.generation || (gen == st.s.generation && st.swap == Published) }

  lemma {:induction false} DoomedStaysDoomed(st: State, steps: seq<Step>, gen: nat)
    requires Doomed(st, gen) && Runs(st, steps)
    ensures Doomed(Run(st, steps), gen)
    decreases |steps|
  {
    if steps != [] {
      DoomedStaysDoomed(Apply(st, steps[0]), steps[1..], gen);
    }
  }

  /** A snapshot can see the new client before the generation moves. Whatever happens next,
      a result loaded with it is not stored. */
  lemma EarlyClientIsDiscarded(st: State, t: nat, steps: seq<Step>)
    requires Inv(st) && st.swap == Published && Enabled(st, Snapshot(t)) && Runs(Apply(st, Snapshot(t)), steps)
    ensures var end := Run(Apply(st, Snapshot(t)), steps);
            Enabled(end, Store(t)) && end.calls[t].gen == st.calls[t].gen ==> Apply(end, Store(t)).calls[t] == Looping
  {
    assert CallInv(st, st.calls[t]);
    DoomedStaysDoomed(Apply(st, Snapshot(t)), steps, st.calls[t].gen);
  }
}
