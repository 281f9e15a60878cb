/** All the live streams of a server and the reconciler that wakes them, as one machine whose
    steps interleave freely. */
module LiveStreams {
  import opened EventStream

  /** The reconciler's pass: the agents still to be asked about, the frontiers just read, and,
      while the registry lock is held, the registrations to examine and those about to be
      signalled. `origin` records, for every stream registered since the pass began, how long its
      log was then; no step looks at it. */
  datatype Pass =
    | Idle
    | Listing(remaining: seq<int>, origin: map<int, nat>)
    | Listed(frontiers: map<int, nat>, remaining: seq<int>, origin: map<int, nat>)
    | Signalling(todo: map<int, nat>, sending: map<int, nat>, remaining: seq<int>, origin: map<int, nat>)

  datatype State = State(
    logs: map<int, seq<Entry>>, streams: map<int, Stream>, registry: map<int, set<int>>,
    started: bool, closed: bool, pass: Pass, batchSize: int)

  datatype Action =
    | Append(agent: int, output: bool, context: string)
    | Connect(x: int, agent: int, start: int)
    | Register(x: int)
    | Unregister(x: int)
    | Wake(x: int)
    | Reader(x: int, move: Move)
    | StartPass(order: seq<int>)
    | ReadFrontiers
    | Lock
    | Examine(x: int)
    | Send(x: int)
    | Unlock
    | FinishPass
    | FailPass
    | Close

  const DEFAULT_BATCH_SIZE := 1000

  function Initial(batchSize: int): State {
    State(map[], map[], map[], false, false, Idle, if batchSize <= 0 then DEFAULT_BATCH_SIZE else batchSize)
  }

  function Log(s: State, agent: int): seq<Entry> {
    if agent in s.logs then s.logs[agent] else []
  }

  /** The log that stream x reads. */
  function LogOf(s: State, x: int): seq<Entry>
    requires x in s.streams
  {
    Log(s, s.streams[x].agent)
  }

  function Enrol(registry: map<int, set<int>>, agent: int, x: int): map<int, set<int>> {
    registry[agent := (if agent in registry then registry[agent] else {}) + {x}]
  }

  /** The last registration of an agent takes the agent's entry with it. */
  function Withdraw(registry: map<int, set<int>>, agent: int, x: int): map<int, set<int>> {
    if agent !in registry then registry
    else if registry[agent] - {x} == {} then registry - {agent}
    else registry[agent := registry[agent] - {x}]
  }

  predicate Registered(s: State, x: int) {
    x in s.streams && s.streams[x].agent in s.registry && x in s.registry[s.streams[x].agent]
  }

  function Pending(s: State, frontiers: map<int, nat>): map<int, nat> {
    map x | x in s.streams && Registered(s, x) && s.streams[x].agent in frontiers :: frontiers[s.streams[x].agent]
  }

  function Lengths(s: State): map<int, nat> {
    map x | x in s.streams && Registered(s, x) :: |LogOf(s, x)|
  }

  function Batch(s: State): nat
    requires s.pass.Listing?
    ensures Batch(s) <= |s.pass.remaining|
  {
    if 0 < s.batchSize < |s.pass.remaining| then s.batchSize else |s.pass.remaining|
  }

  // ----- steps -----

  predicate Enabled(s: State, a: Action) {
    match a
    case Append(_, _, _) => true
    case Connect(x, _, start) => x !in s.streams && 0 <= start
    case Register(x) => x in s.streams && s.streams[x].phase.Connecting? && !s.pass.Signalling?
    case Unregister(x) => x in s.streams && s.streams[x].phase.Stopped? && !s.pass.Signalling?
    case Wake(x) => x in s.streams
    case Reader(x, m) => x in s.streams && 0 <= s.streams[x].after && CanMove(LogOf(s, x), s.streams[x], m)
    case StartPass(order) => s.pass.Idle? && s.started && !s.closed && (set k | k in order) == s.registry.Keys
    case ReadFrontiers => s.pass.Listing? && s.pass.remaining != []
    case Lock => s.pass.Listed?
    case Examine(x) => s.pass.Signalling? && x in s.pass.todo && x in s.streams
    case Send(x) => s.pass.Signalling? && x in s.pass.sending && x in s.streams
    case Unlock => s.pass.Signalling? && s.pass.todo == map[] && s.pass.sending == map[]
    case FinishPass => s.pass.Listing? && s.pass.remaining == []
    case FailPass => s.pass.Listing? && s.pass.remaining != []
    case Close => !s.pass.Signalling?
  }

  function Put(s: State, x: int, st: Stream): State {
    s.(streams := s.streams[x := st])
  }

  function ApplyRegister(s: State, x: int): State
    requires x in s.streams
  {
    var st := s.streams[x];
    if s.closed then Put(s, x, st.(phase := Stopped))
    else Put(s, x, st.(phase := Reading)).(registry := Enrol(s.registry, st.agent, x), started := true)
  }

  function ApplyUnregister(s: State, x: int): State
    requires x in s.streams
  {
    s.(registry := Withdraw(s.registry, s.streams[x].agent, x),
       pass := match s.pass
               case Listing(remaining, origin) => Listing(remaining, origin - {x})
               case Listed(frontiers, remaining, origin) => Listed(frontiers, remaining, origin - {x})
               case p => p)
  }

  function ApplyExamine(s: State, x: int): State
    requires s.pass.Signalling? && x in s.pass.todo && x in s.streams
  {
    var f := s.pass.todo[x];
    if f <= s.streams[x].cursor then
      Put(s, x, Skip(s.streams[x], f)).(pass := s.pass.(todo := s.pass.todo - {x}))
    else
      s.(pass := s.pass.(todo := s.pass.todo - {x}, sending := s.pass.sending[x := f]))
  }

  function ApplySend(s: State, x: int): State
    requires s.pass.Signalling? && x in s.pass.sending && x in s.streams
  {
    Put(s, x, Signal(s.streams[x], s.pass.sending[x])).(pass := s.pass.(sending := s.pass.sending - {x}))
  }

  function ApplyReadFrontiers(s: State): State
    requires s.pass.Listing?
  {
    var n := Batch(s);
    var batch := s.pass.remaining[..n];
    s.(pass := Listed(map a | a in batch :: |Log(s, a)|, s.pass.remaining[n..], s.pass.origin))
  }

  function Apply(s: State, a: Action): State
    requires Enabled(s, a)
  {
    match a
    case Append(agent, output, context) =>
      s.(logs := s.logs[agent := Log(s, agent) + [Entry(|Log(s, agent)| + 1, output, context)]])
    case Connect(x, agent, start) => Put(s, x, Opened(agent, start))
    case Register(x) => ApplyRegister(s, x)
    case Unregister(x) => ApplyUnregister(s, x)
    case Wake(x) => Put(s, x, Signal(s.streams[x], |LogOf(s, x)|))
    case Reader(x, m) => Put(s, x, Moved(LogOf(s, x), s.streams[x], m))
    case StartPass(order) => s.(pass := Listing(order, Lengths(s)))
    case ReadFrontiers => ApplyReadFrontiers(s)
    case Lock => s.(pass := Signalling(Pending(s, s.pass.frontiers), map[], s.pass.remaining, s.pass.origin))
    case Examine(x) => ApplyExamine(s, x)
    case Send(x) => ApplySend(s, x)
    case Unlock => s.(pass := Listing(s.pass.remaining, s.pass.origin))
    case FinishPass => s.(pass := Idle)
    case FailPass => s.(pass := Idle)
    case Close => s.(closed := true)
  }

  // ----- invariant -----

  ghost predicate StreamsSound(s: State) {
    forall x :: x in s.streams ==> StreamInv(LogOf(s, x), s.streams[x])
  }

  ghost predicate LogsNumbered(s: State) {
    forall a :: a in s.logs ==> Numbered(s.logs[a])
  }

  ghost predicate RegistrySound(s: State) {
    && (forall a :: a in s.registry ==> s.registry[a] != {})
    && (forall a, x :: a in s.registry && x in s.registry[a] ==> x in s.streams && s.streams[x].agent == a)
  }

  ghost predicate Bounded(s: State, marks: map<int, nat>) {
    forall x :: x in marks ==> Registered(s, x) && marks[x] <= |LogOf(s, x)|
  }

  function Origin(p: Pass): map<int, nat> {
    if p.Idle? then map[] else p.origin
  }

  /** What the pass still owes stream x, or has already announced to it. */
  ghost predicate Served(s: State, x: int, length: nat) {
    && Registered(s, x)
    && (s.streams[x].due >= length ||
        match s.pass
        case Idle => true
        case Listing(remaining, _) => s.streams[x].agent in remaining
        case Listed(frontiers, remaining, _) =>
          || s.streams[x].agent in remaining
          || (s.streams[x].agent in frontiers && frontiers[s.streams[x].agent] >= length)
        case Signalling(todo, sending, remaining, _) =>
          || s.streams[x].agent in remaining
          || (x in todo && todo[x] >= length)
          || (x in sending && sending[x] >= length))
  }

  ghost predicate PassSound(s: State) {
    && (forall x :: x in Origin(s.pass) ==> Served(s, x, Origin(s.pass)[x]) && Origin(s.pass)[x] <= |LogOf(s, x)|)
    && (s.pass.Listed? ==> forall a :: a in s.pass.frontiers ==> s.pass.frontiers[a] <= |Log(s, a)|)
    && (s.pass.Signalling? ==> Bounded(s, s.pass.todo) && Bounded(s, s.pass.sending) && s.pass.todo.Keys !! s.pass.sending.Keys)
  }

  ghost predicate Inv(s: State) {
    LogsNumbered(s) && StreamsSound(s) && RegistrySound(s) && PassSound(s)
  }

  // ----- every step keeps it -----

  /** From s to s', stream x keeps its agent, its log and its announcements only grow, and it
      stays registered. */
  ghost predicate Carried(s: State, s': State, x: int) {
    && x in s.streams && x in s'.streams
    && s'.streams[x].agent == s.streams[x].agent && s'.streams[x].due >= s.streams[x].due
    && |LogOf(s, x)| <= |LogOf(s', x)|
    && (Registered(s, x) ==> Registered(s', x))
  }

  lemma WithdrawKeepsOthers(registry: map<int, set<int>>, agent: int, x: int, a: int, y: int)
    requires y != x && a in registry && y in registry[a]
    ensures a in Withdraw(registry, agent, x) && y in Withdraw(registry, agent, x)[a]
  {
    assert a == agent ==> y in registry[agent] - {x};
  }

  /** The steps that touch the registry. */
  predicate Enrols(a: Action) {
    a.Register? || a.Unregister?
  }

  /** The reconciler's steps, and closing. */
  predicate Reconciles(a: Action) {
    a.StartPass? || a.ReadFrontiers? || a.Lock? || a.Examine? || a.Send? || a.Unlock? || a.FinishPass? || a.FailPass? || a.Close?
  }

  /** Its steps on a single registration. */
  predicate Signals(a: Action) {
    a.Examine? || a.Send?
  }

  lemma EnrolCarries(s: State, a: Action, x: int)
    requires Enabled(s, a) && x in s.streams && Enrols(a) && a != Unregister(x)
    ensures Carried(s, Apply(s, a), x)
  {
    if a.Unregister? && Registered(s, x) {
      WithdrawKeepsOthers(s.registry, s.streams[a.x].agent, a.x, s.streams[x].agent, x);
    }
  }

  lemma ReconcileCarries(s: State, a: Action, x: int)
    requires Enabled(s, a) && x in s.streams && Reconciles(a)
    ensures Carried(s, Apply(s, a), x)
  {
  }

  lemma StreamWorkCarries(s: State, a: Action, x: int)
    requires Enabled(s, a) && x in s.streams && !Enrols(a) && !Reconciles(a)
    ensures Carried(s, Apply(s, a), x)
  {
  }

  lemma StepCarries(s: State, a: Action, x: int)
    requires Enabled(s, a) && x in s.streams && a != Unregister(x)
    ensures Carried(s, Apply(s, a), x)
  {
    if Enrols(a) {
      EnrolCarries(s, a, x);
    } else if Reconciles(a) {
      ReconcileCarries(s, a, x);
    } else {
      StreamWorkCarries(s, a, x);
    }
  }

  lemma LogsKeep(s: State, a: Action)
    requires LogsNumbered(s) && Enabled(s, a)
    ensures LogsNumbered(Apply(s, a))
  {
  }

  lemma EnrolKeepsRegistry(s: State, a: Action)
    requires RegistrySound(s) && Enabled(s, a) && Enrols(a)
    ensures RegistrySound(Apply(s, a))
  {
  }

  lemma ReconcileKeepsRegistry(s: State, a: Action)
    requires RegistrySound(s) && Enabled(s, a) && Reconciles(a)
    ensures RegistrySound(Apply(s, a))
  {
  }

  lemma StreamWorkKeepsRegistry(s: State, a: Action)
    requires RegistrySound(s) && Enabled(s, a) && !Enrols(a) && !Reconciles(a)
    ensures RegistrySound(Apply(s, a))
  {
  }

  lemma RegistryKeeps(s: State, a: Action)
    requires RegistrySound(s) && Enabled(s, a)
    ensures RegistrySound(Apply(s, a))
  {
    if Enrols(a) {
      EnrolKeepsRegistry(s, a);
    } else if Reconciles(a) {
      ReconcileKeepsRegistry(s, a);
    } else {
      StreamWorkKeepsRegistry(s, a);
    }
  }

  /** What a step does to stream x. */
  function EffectOn(s: State, a: Action, x: int): Effect
    requires Enabled(s, a) && x in s.streams
  {
    match a
    case Append(agent, output, context) =>
      if agent == s.streams[x].agent then Grows(Entry(|LogOf(s, x)| + 1, output, context)) else Stays
    case Wake(y) => if x == y then Signalled(|LogOf(s, x)|) else Stays
    case Reader(y, m) => if x == y then Moves(m) else Stays
    case Examine(y) => if x == y && s.pass.todo[x] <= s.streams[x].cursor then Skipped(s.pass.todo[x]) else Stays
    case Send(y) => if x == y then Signalled(s.pass.sending[x]) else Stays
    case Register(y) => if x == y then Admitted(s.closed) else Stays
    case _ => Stays
  }

  lemma StepOnStream(s: State, a: Action, x: int)
    requires Enabled(s, a) && x in s.streams
    requires s.pass.Signalling? ==> Bounded(s, s.pass.todo) && Bounded(s, s.pass.sending)
    ensures CanAffect(LogOf(s, x), s.streams[x], EffectOn(s, a, x))
  {
  }

  lemma SignalAffectsStream(s: State, a: Action, x: int)
    requires Enabled(s, a) && x in s.streams && Signals(a)
    requires CanAffect(LogOf(s, x), s.streams[x], EffectOn(s, a, x))
    ensures x in Apply(s, a).streams
    ensures Apply(s, a).streams[x] == Affected(LogOf(s, x), s.streams[x], EffectOn(s, a, x))
  {
  }

  lemma PassAffectsNoStream(s: State, a: Action, x: int)
    requires Enabled(s, a) && x in s.streams && Reconciles(a) && !Signals(a)
    ensures x in Apply(s, a).streams && Apply(s, a).streams[x] == s.streams[x] && EffectOn(s, a, x) == Stays
  {
  }

  lemma WorkAffectsStream(s: State, a: Action, x: int)
    requires Enabled(s, a) && x in s.streams && !Reconciles(a)
    requires CanAffect(LogOf(s, x), s.streams[x], EffectOn(s, a, x))
    ensures x in Apply(s, a).streams
    ensures Apply(s, a).streams[x] == Affected(LogOf(s, x), s.streams[x], EffectOn(s, a, x))
  {
  }

  lemma StepAffectsStream(s: State, a: Action, x: int)
    requires Enabled(s, a) && x in s.streams && CanAffect(LogOf(s, x), s.streams[x], EffectOn(s, a, x))
    ensures x in Apply(s, a).streams
    ensures Apply(s, a).streams[x] == Affected(LogOf(s, x), s.streams[x], EffectOn(s, a, x))
  {
    if Signals(a) {
      SignalAffectsStream(s, a, x);
    } else if Reconciles(a) {
      PassAffectsNoStream(s, a, x);
    } else {
      WorkAffectsStream(s, a, x);
    }
  }

  lemma StepAffectsLog(s: State, a: Action, x: int)
    requires Enabled(s, a) && x in s.streams && a != Unregister(x)
    requires x in Apply(s, a).streams && Apply(s, a).streams[x].agent == s.streams[x].agent
    ensures LogOf(Apply(s, a), x) == LogAfter(LogOf(s, x), EffectOn(s, a, x))
  {
  }

  lemma StepAffects(s: State, a: Action, x: int)
    requires Enabled(s, a) && x in s.streams && CanAffect(LogOf(s, x), s.streams[x], EffectOn(s, a, x))
    ensures x in Apply(s, a).streams
    ensures LogOf(Apply(s, a), x) == LogAfter(LogOf(s, x), EffectOn(s, a, x))
    ensures Apply(s, a).streams[x] == Affected(LogOf(s, x), s.streams[x], EffectOn(s, a, x))
  {
    StepAffectsStream(s, a, x);
    if a != Unregister(x) {
      StepAffectsLog(s, a, x);
    }
  }

  lemma StreamKeeps(s: State, a: Action, x: int)
    requires Enabled(s, a) && x in s.streams && StreamInv(LogOf(s, x), s.streams[x])
    requires s.pass.Signalling? ==> Bounded(s, s.pass.todo) && Bounded(s, s.pass.sending)
    ensures x in Apply(s, a).streams && StreamInv(LogOf(Apply(s, a), x), Apply(s, a).streams[x])
  {
    StepOnStream(s, a, x);
    StepAffects(s, a, x);
    EffectKeeps(LogOf(s, x), s.streams[x], EffectOn(s, a, x));
  }

  lemma WorkKeepsServed(s: State, a: Action, x: int, length: nat)
    requires Enabled(s, a) && Served(s, x, length) && !Reconciles(a)
    requires a != Unregister(x) && !s.pass.Idle?
    ensures Served(Apply(s, a), x, length)
  {
    StepCarries(s, a, x);
  }

  /** The reconciler's steps move what a stream is owed along: from the agents to ask about, to the
      frontiers, to the registrations to examine, to those to signal, to what was announced. */
  lemma PassKeepsServed(s: State, a: Action, x: int, length: nat)
    requires Enabled(s, a) && Served(s, x, length) && length <= |LogOf(s, x)|
    requires Reconciles(a) && !Signals(a) && !s.pass.Idle?
    ensures Served(Apply(s, a), x, length)
  {
    match a
    case ReadFrontiers =>
      var n := Batch(s);
      assert s.pass.remaining == s.pass.remaining[..n] + s.pass.remaining[n..];
    case Lock =>
      assert s.streams[x].agent in s.pass.frontiers ==> x in Pending(s, s.pass.frontiers);
    case _ =>
  }

  lemma ExamineKeepsServed(s: State, y: int, x: int, length: nat)
    requires Enabled(s, Examine(y)) && Served(s, x, length) && y !in s.pass.sending
    ensures Served(ApplyExamine(s, y), x, length)
  {
  }

  lemma SendKeepsServed(s: State, y: int, x: int, length: nat)
    requires Enabled(s, Send(y)) && Served(s, x, length)
    ensures Served(ApplySend(s, y), x, length)
  {
  }

  lemma ServedKeeps(s: State, a: Action, x: int, length: nat)
    requires Enabled(s, a) && Served(s, x, length) && length <= |LogOf(s, x)|
    requires a != Unregister(x) && !s.pass.Idle?
    requires s.pass.Signalling? ==> s.pass.todo.Keys !! s.pass.sending.Keys
    ensures Served(Apply(s, a), x, length)
  {
    if a.Examine? {
      ExamineKeepsServed(s, a.x, x, length);
    } else if a.Send? {
      SendKeepsServed(s, a.x, x, length);
    } else if Reconciles(a) {
      PassKeepsServed(s, a, x, length);
    } else {
      WorkKeepsServed(s, a, x, length);
    }
  }

  lemma StartServes(s: State, order: seq<int>, x: int)
    requires Enabled(s, StartPass(order)) && x in Lengths(s)
    ensures Served(Apply(s, StartPass(order)), x, Lengths(s)[x])
  {
    assert s.streams[x].agent in s.registry.Keys;
  }

  /** A step other than the start of a pass leaves what was noted at its start. */
  lemma OriginFrom(s: State, a: Action, x: int)
    requires Enabled(s, a) && !a.StartPass? && x in Origin(Apply(s, a).pass)
    ensures !s.pass.Idle? && x in s.pass.origin && Origin(Apply(s, a).pass)[x] == s.pass.origin[x]
    ensures a != Unregister(x)
  {
  }

  lemma OriginKeeps(s: State, a: Action, x: int)
    requires Enabled(s, a) && PassSound(s) && x in Origin(Apply(s, a).pass)
    ensures Served(Apply(s, a), x, Origin(Apply(s, a).pass)[x])
    ensures Origin(Apply(s, a).pass)[x] <= |LogOf(Apply(s, a), x)|
  {
    if a.StartPass? {
      StartServes(s, a.order, x);
    } else {
      OriginFrom(s, a, x);
      assert x in Origin(s.pass);
      ServedKeeps(s, a, x, s.pass.origin[x]);
      StepCarries(s, a, x);
    }
  }

  lemma BoundedKeeps(s: State, a: Action, marks: map<int, nat>)
    requires Enabled(s, a) && Bounded(s, marks) && s.pass.Signalling?
    ensures Bounded(Apply(s, a), marks)
  {
    forall x | x in marks ensures Registered(Apply(s, a), x) && marks[x] <= |LogOf(Apply(s, a), x)| {
      StepCarries(s, a, x);
    }
  }

  lemma LockMarks(s: State)
    requires s.pass.Listed? && forall a :: a in s.pass.frontiers ==> s.pass.frontiers[a] <= |Log(s, a)|
    ensures Bounded(Apply(s, Lock), Pending(s, s.pass.frontiers))
  {
  }

  /** While the registry is locked marks only move from one map to the other, or go. */
  lemma MarksMove(s: State, a: Action)
    requires Enabled(s, a) && s.pass.Signalling? && Apply(s, a).pass.Signalling?
    requires s.pass.todo.Keys !! s.pass.sending.Keys
    ensures var p, q := s.pass, Apply(s, a).pass;
      && q.todo.Keys !! q.sending.Keys && q.todo.Keys <= p.todo.Keys && q.sending.Keys <= p.todo.Keys + p.sending.Keys
      && (forall x :: x in q.todo ==> q.todo[x] == p.todo[x])
      && (forall x :: x in q.sending ==> q.sending[x] == if x in p.sending then p.sending[x] else p.todo[x])
  {
  }

  lemma MarksKeep(s: State, a: Action)
    requires Enabled(s, a) && PassSound(s) && Apply(s, a).pass.Signalling?
    ensures Bounded(Apply(s, a), Apply(s, a).pass.todo) && Bounded(Apply(s, a), Apply(s, a).pass.sending)
    ensures Apply(s, a).pass.todo.Keys !! Apply(s, a).pass.sending.Keys
  {
    if s.pass.Signalling? {
      MarksMove(s, a);
      BoundedKeeps(s, a, s.pass.todo);
      BoundedKeeps(s, a, s.pass.sending);
    } else {
      assert a.Lock?;
      LockMarks(s);
    }
  }

  lemma PassKeeps(s: State, a: Action)
    requires Enabled(s, a) && RegistrySound(s) && PassSound(s)
    ensures PassSound(Apply(s, a))
  {
    var s' := Apply(s, a);
    forall x | x in Origin(s'.pass)
      ensures Served(s', x, Origin(s'.pass)[x]) && Origin(s'.pass)[x] <= |LogOf(s', x)|
    {
      OriginKeeps(s, a, x);
    }
    if s'.pass.Signalling? { MarksKeep(s, a); }
  }

  lemma StepKeeps(s: State, a: Action)
    requires Inv(s) && Enabled(s, a)
    ensures Inv(Apply(s, a))
  {
    LogsKeep(s, a);
    RegistryKeeps(s, a);
    PassKeeps(s, a);
    StreamsKeep(s, a);
  }

  lemma StreamsKeep(s: State, a: Action)
    requires LogsNumbered(s) && StreamsSound(s) && PassSound(s) && Enabled(s, a)
    ensures StreamsSound(Apply(s, a))
  {
    var s' := Apply(s, a);
    forall x | x in s'.streams ensures StreamInv(LogOf(s', x), s'.streams[x]) {
      if x in s.streams {
        StreamKeeps(s, a, x);
      } else {
        OpenedIsSound(Log(s, a.agent), a.agent, a.start);
      }
    }
  }

  // ----- runs -----

  ghost predicate IsRun(states: seq<State>, actions: seq<Action>, batchSize: int) {
    && |states| == |actions| + 1
    && states[0] == Initial(batchSize)
    && forall i :: 0 <= i < |actions| ==> Takes(states[i], actions[i], states[i + 1])
  }

  ghost predicate Takes(s: State, a: Action, s': State) {
    Enabled(s, a) && s' == Apply(s, a)
  }

  lemma {:induction false} EveryStateIsSound(states: seq<State>, actions: seq<Action>, batchSize: int, n: nat)
    requires IsRun(states, actions, batchSize) && n < |states|
    ensures Inv(states[n])
  {
    if n > 0 {
      EveryStateIsSound(states, actions, batchSize, n - 1);
      assert Takes(states[n - 1], actions[n - 1], states[n]);
      StepKeeps(states[n - 1], actions[n - 1]);
    }
  }

  /** In every interleaving a connection has written exactly the events after its starting cursor,
      in order; its registered cursor is the last of them unless that very step is under way; and
      no delta follows the output of its model call. */
  lemma DeliveryIsExactlyOnce(states: seq<State>, actions: seq<Action>, batchSize: int, n: nat, x: int)
    requires IsRun(states, actions, batchSize) && n < |states| && x in states[n].streams
    ensures var st := states[n].streams[x]; var events := Events(st.frames);
      && 0 <= st.start
      && (events != [] ==> st.start + |events| <= |LogOf(states[n], x)|)
      && (events != [] ==> events == LogOf(states[n], x)[st.start..st.start + |events|])
      && (!st.phase.Advancing? && !st.phase.Stopped? ==> st.cursor == st.after == st.start + |events|)
      && NoStaleDelta(st.frames)
  {
    EveryStateIsSound(states, actions, batchSize, n);
    assert StreamInv(LogOf(states[n], x), states[n].streams[x]);
  }

  /** In every interleaving, what a step of a connection's reader adds to its frames is told by the
      log and the frames written before: the next event, a best-effort frame, an error frame, or, for
      a delta, the delta exactly if it is well-formed and its model call's output was not written yet.
      No other step changes them. */
  lemma WhatIsWritten(states: seq<State>, actions: seq<Action>, batchSize: int, n: nat, x: int)
    requires IsRun(states, actions, batchSize) && n < |actions| && x in states[n].streams
    ensures x in states[n + 1].streams
    ensures var st, a := states[n].streams[x], actions[n];
      states[n + 1].streams[x].frames == st.frames + if a.Reader? && a.x == x then Added(LogOf(states[n], x), st, a.move) else []
  {
    EveryStateIsSound(states, actions, batchSize, n);
    RunAffects(states, actions, batchSize, n, x);
    var log, st, e := LogOf(states[n], x), states[n].streams[x], EffectOn(states[n], actions[n], x);
    assert StreamInv(log, st);
    if e.Moves? {
      MoveAdds(log, st, e.move);
    }
  }

  /** A delta reaches the client exactly if it is well-formed and no output of its model call did. */
  lemma DeltaIsWrittenIff(states: seq<State>, actions: seq<Action>, batchSize: int, n: nat, x: int, valid: bool, context: string)
    requires IsRun(states, actions, batchSize) && n < |actions| && actions[n] == Reader(x, EmitDelta(valid, context))
    ensures x in states[n].streams && x in states[n + 1].streams
    ensures var frames, frames' := states[n].streams[x].frames, states[n + 1].streams[x].frames;
      frames' == if valid && !CompletedIn(frames, context) then frames + [DeltaFrame(context)] else frames
  {
    assert Takes(states[n], actions[n], states[n + 1]);
    WhatIsWritten(states, actions, batchSize, n, x);
  }

  /** In every interleaving, a client that reconnects with the last id it received gets, over both
      connections, one gapless piece of its agent's log. */
  lemma ReconnectContinues(states: seq<State>, actions: seq<Action>, batchSize: int, n: nat, x: int, y: int,
                           received: nat, afterSequence: int, hasAfter: bool)
    requires IsRun(states, actions, batchSize) && n < |states| && x in states[n].streams && y in states[n].streams
    requires states[n].streams[x].agent == states[n].streams[y].agent && 0 <= afterSequence
    requires 0 < received <= |Events(states[n].streams[x].frames)|
    requires ChooseStart(afterSequence, hasAfter, Events(states[n].streams[x].frames)[received - 1].sequence, true)
      == StartAt(states[n].streams[y].start)
    ensures var a, b := states[n].streams[x], states[n].streams[y];
      && 0 <= a.start && a.start + received + |Events(b.frames)| <= |LogOf(states[n], x)|
      && Events(a.frames)[..received] + Events(b.frames)
        == LogOf(states[n], x)[a.start..a.start + received + |Events(b.frames)|]
  {
    EveryStateIsSound(states, actions, batchSize, n);
    var log, a, b := LogOf(states[n], x), states[n].streams[x], states[n].streams[y];
    assert StreamInv(log, a) && StreamInv(log, b);
    ResumeContinues(log, a, b, received, afterSequence, hasAfter);
  }

  lemma RunAffects(states: seq<State>, actions: seq<Action>, batchSize: int, n: nat, x: int)
    requires IsRun(states, actions, batchSize) && n < |actions| && x in states[n].streams
    ensures x in states[n + 1].streams
    ensures CanAffect(LogOf(states[n], x), states[n].streams[x], EffectOn(states[n], actions[n], x))
    ensures states[n + 1].streams[x] == Affected(LogOf(states[n], x), states[n].streams[x], EffectOn(states[n], actions[n], x))
  {
    EveryStateIsSound(states, actions, batchSize, n);
    assert Takes(states[n], actions[n], states[n + 1]);
    StepOnStream(states[n], actions[n], x);
    StepAffects(states[n], actions[n], x);
  }

  /** Step i announces something to stream x: a wakeup from its subscription, or the reconciler's. */
  predicate SignalledAt(actions: seq<Action>, i: nat, x: int) {
    i < |actions| && (actions[i] == Wake(x) || actions[i] == Send(x))
  }

  ghost predicate ReadBetween(actions: seq<Action>, i: nat, j: nat, x: int) {
    exists k :: i < k < j && k < |actions| && actions[k] == Reader(x, BeginRead)
  }

  lemma {:induction false} AwakeSinceSignal(states: seq<State>, actions: seq<Action>, batchSize: int, i: nat, j: nat, x: int)
    requires IsRun(states, actions, batchSize) && i < j < |states| && SignalledAt(actions, i, x)
    ensures x in states[j].streams
    ensures Awake(states[j].streams[x]) || ReadBetween(actions, i, j, x)
  {
    if j == i + 1 {
      assert Takes(states[i], actions[i], states[j]);
      RunAffects(states, actions, batchSize, i, x);
    } else {
      AwakeSinceSignal(states, actions, batchSize, i, j - 1, x);
      RunAffects(states, actions, batchSize, j - 1, x);
      if ReadBetween(actions, i, j - 1, x) || actions[j - 1] == Reader(x, BeginRead) {
        assert ReadBetween(actions, i, j, x);
      } else {
        AwakeUntilRead(LogOf(states[j - 1], x), states[j - 1].streams[x], EffectOn(states[j - 1], actions[j - 1], x));
      }
    }
  }

  /** No lost wakeup: a stream that was signalled begins a durable read after that signal before it
      can block with an empty slot. */
  lemma SignalIsServed(states: seq<State>, actions: seq<Action>, batchSize: int, i: nat, j: nat, x: int)
    requires IsRun(states, actions, batchSize) && i < j < |states| && SignalledAt(actions, i, x)
    requires x in states[j].streams && Blocked(states[j].streams[x])
    ensures ReadBetween(actions, i, j, x)
  {
    AwakeSinceSignal(states, actions, batchSize, i, j, x);
  }

  lemma {:induction false} RestsSinceBlocked(states: seq<State>, actions: seq<Action>, batchSize: int, i: nat, j: nat, x: int)
    requires IsRun(states, actions, batchSize) && i <= j < |states| && x in states[i].streams && Blocked(states[i].streams[x])
    requires forall k :: i <= k < j ==> !SignalledAt(actions, k, x)
    ensures x in states[j].streams && Resting(states[j].streams[x])
    ensures !ReadBetween(actions, i, j, x)
  {
    if i < j {
      RestsSinceBlocked(states, actions, batchSize, i, j - 1, x);
      RunAffects(states, actions, batchSize, j - 1, x);
      assert !SignalledAt(actions, j - 1, x);
      RestsUntilSignal(LogOf(states[j - 1], x), states[j - 1].streams[x], EffectOn(states[j - 1], actions[j - 1], x));
    }
  }

  /** No idle polling: a stream that blocked with an empty slot begins no durable read before it is
      signalled. */
  lemma NoReadWithoutSignal(states: seq<State>, actions: seq<Action>, batchSize: int, i: nat, j: nat, x: int)
    requires IsRun(states, actions, batchSize) && i < j < |actions| && x in states[i].streams && Blocked(states[i].streams[x])
    requires actions[j] == Reader(x, BeginRead)
    ensures exists k :: i <= k < j && SignalledAt(actions, k, x)
  {
    assert Takes(states[j], actions[j], states[j + 1]);
    if forall k :: i <= k < j ==> !SignalledAt(actions, k, x) {
      RestsSinceBlocked(states, actions, batchSize, i, j, x);
      assert false;
    }
  }

  /** Step i found stream x behind frontier f. */
  ghost predicate FoundBehind(states: seq<State>, actions: seq<Action>, i: nat, x: int, f: nat) {
    i < |actions| && i < |states| && actions[i] == Examine(x) && x in states[i].streams && states[i].streams[x].cursor < f
  }

  /** A stream is marked for sending when it is found behind, and keeps that mark. */
  lemma MarkedBehind(s: State, a: Action, x: int)
    requires Enabled(s, a) && PassSound(s) && Apply(s, a).pass.Signalling? && x in Apply(s, a).pass.sending
    requires !(s.pass.Signalling? && x in s.pass.sending)
    ensures a == Examine(x) && x in s.streams && s.streams[x].cursor < Apply(s, a).pass.sending[x]
  {
  }

  lemma {:induction false} SendingWasBehind(states: seq<State>, actions: seq<Action>, batchSize: int, n: nat, x: int)
    requires IsRun(states, actions, batchSize) && n < |states|
    requires states[n].pass.Signalling? && x in states[n].pass.sending
    ensures exists i: nat :: i < n && FoundBehind(states, actions, i, x, states[n].pass.sending[x])
  {
    var s := states[n - 1];
    assert Takes(s, actions[n - 1], states[n]);
    EveryStateIsSound(states, actions, batchSize, n - 1);
    if s.pass.Signalling? && x in s.pass.sending {
      MarksMove(s, actions[n - 1]);
      SendingWasBehind(states, actions, batchSize, n - 1, x);
    } else {
      MarkedBehind(s, actions[n - 1], x);
      assert FoundBehind(states, actions, n - 1, x, states[n].pass.sending[x]);
    }
  }

  /** The reconciler wakes only streams that were behind a frontier of their log when it looked. */
  lemma SentOnlyIfBehind(states: seq<State>, actions: seq<Action>, batchSize: int, n: nat, x: int)
    requires IsRun(states, actions, batchSize) && n < |actions| && actions[n] == Send(x)
    ensures x in states[n].streams
    ensures exists i: nat, f: nat :: i < n && FoundBehind(states, actions, i, x, f) && f <= |LogOf(states[n], x)|
  {
    assert Takes(states[n], actions[n], states[n + 1]);
    SendingWasBehind(states, actions, batchSize, n, x);
    EveryStateIsSound(states, actions, batchSize, n);
    assert states[n].pass.sending[x] <= |LogOf(states[n], x)|;
  }

  ghost predicate Emits(actions: seq<Action>, k: nat, x: int) {
    k < |actions| && actions[k].Reader? && actions[k].x == x && BestEffort(actions[k].move)
  }

  lemma {:induction false} YieldsAfterRace(states: seq<State>, actions: seq<Action>, batchSize: int, m: nat, j: nat, x: int)
    requires IsRun(states, actions, batchSize) && m < j < |states|
    requires Emits(actions, m, x) && x in states[m].streams && states[m].streams[x].slot
    ensures x in states[j].streams
    ensures Yielding(states[j].streams[x]) || ReadBetween(actions, m, j, x)
  {
    if j == m + 1 {
      RunAffects(states, actions, batchSize, m, x);
    } else {
      YieldsAfterRace(states, actions, batchSize, m, j - 1, x);
      RunAffects(states, actions, batchSize, j - 1, x);
      if ReadBetween(actions, m, j - 1, x) || actions[j - 1] == Reader(x, BeginRead) {
        assert ReadBetween(actions, m, j, x);
      } else {
        YieldsUntilRead(LogOf(states[j - 1], x), states[j - 1].streams[x], EffectOn(states[j - 1], actions[j - 1], x));
      }
    }
  }

  /** At most one best-effort frame races past a signal: before a second one, a durable read begins. */
  lemma OneFrameRaces(states: seq<State>, actions: seq<Action>, batchSize: int, i: nat, m: nat, j: nat, x: int)
    requires IsRun(states, actions, batchSize) && i < m < j && SignalledAt(actions, i, x)
    requires Emits(actions, m, x) && Emits(actions, j, x)
    ensures ReadBetween(actions, i, j, x)
  {
    AwakeSinceSignal(states, actions, batchSize, i, m, x);
    if ReadBetween(actions, i, m, x) {
      assert ReadBetween(actions, i, j, x);
    } else {
      assert Takes(states[m], actions[m], states[m + 1]);
      YieldsAfterRace(states, actions, batchSize, m, j, x);
      assert Takes(states[j], actions[j], states[j + 1]);
      assert ReadBetween(actions, m, j, x);
    }
  }

  /** The steps after i up to j belong to the pass begun at i, and x stays registered. */
  ghost predicate WithinPass(actions: seq<Action>, i: nat, j: nat, x: int) {
    forall k :: i < k < j && k < |actions| ==>
      !actions[k].FailPass? && !actions[k].FinishPass? && actions[k] != Unregister(x)
  }

  lemma {:induction false} OriginStays(states: seq<State>, actions: seq<Action>, batchSize: int, i: nat, j: nat, x: int)
    requires IsRun(states, actions, batchSize) && i < j < |states|
    requires actions[i].StartPass? && Registered(states[i], x) && WithinPass(actions, i, j, x)
    ensures !states[j].pass.Idle? && x in states[j].pass.origin && states[j].pass.origin[x] == |LogOf(states[i], x)|
  {
    assert Takes(states[j - 1], actions[j - 1], states[j]);
    if j > i + 1 {
      OriginStays(states, actions, batchSize, i, j - 1, x);
    }
  }

  /** A pass that completes leaves no registered stream asleep behind the log as it was when the
      pass began. */
  lemma PassLeavesNoneBehind(states: seq<State>, actions: seq<Action>, batchSize: int, i: nat, j: nat, x: int)
    requires IsRun(states, actions, batchSize) && i < j < |actions|
    requires actions[i].StartPass? && actions[j].FinishPass?
    requires Registered(states[i], x) && WithinPass(actions, i, j, x)
    ensures x in states[j].streams
    ensures Blocked(states[j].streams[x]) ==> |LogOf(states[i], x)| <= states[j].streams[x].after
  {
    OriginStays(states, actions, batchSize, i, j, x);
    EveryStateIsSound(states, actions, batchSize, j);
    assert Takes(states[j], actions[j], states[j + 1]);
    assert x in Origin(states[j].pass);
    assert StreamInv(LogOf(states[j], x), states[j].streams[x]);
  }
}
