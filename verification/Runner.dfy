/** One compaction run (internal/compaction/runner.go, runner_failure.go): from claiming the model
    call to publishing a checkpoint, scheduling a retry, stopping, or retrying a smaller source.

    The provider's answers, the retry policy and every refusal of the store are arbitrary, and other
    transactions commit between any two reads. */
module Runner {
  import opened Events
  import opened SourceEnds
  import opened Worlds
  import opened Store
  import opened Candidates
  import opened Rounds
  import Selector

  // ----- what a published checkpoint is worth -----

  ghost predicate Durable(w: World, watermark: int) {
    watermark <= Last(w.log)
  }

  /** Everything that publishing cp promises about the world and the checkpoints before the run. */
  ghost predicate Justified(w: World, checkpoints: seq<Checkpoint>, job: Job, cp: Checkpoint) {
    && cp.watermark == job.plan.inputSequence
    && cp.start == job.plan.start == NextStart(checkpoints, cp.watermark)
    && cp.start <= cp.end <= job.plan.end
    && SafeWithin(w, cp.watermark, job.plan.end, cp.end)
    && (Unanswered(w.log, job.opening, cp.watermark) ==> cp.end < job.opening)
    && SummaryReduces(w, checkpoints, cp)
    && Last(w.log) < cp.eventSequence
  }

  ghost predicate SummaryReduces(w: World, checkpoints: seq<Checkpoint>, cp: Checkpoint) {
    var source := Render(Range(w.log, cp.start, cp.end));
    source.Some? && Reduces(PriorSummary(checkpoints, cp.watermark), source.value, cp.summary)
  }

  /** The boundaries a run may still fall back to. */
  ghost function SafeBelow(w: World, job: Job): set<int> {
    set s | job.plan.start <= s < job.plan.end && SafeWithin(w, job.plan.inputSequence, job.plan.end, s)
  }

  lemma UnansweredStable(log: seq<Event>, log': seq<Event>, opening: int, watermark: int)
    requires Ordered(log') && log <= log' && watermark <= Last(log)
    ensures Unanswered(log, opening, watermark) == Unanswered(log', opening, watermark)
  {
    RangeStable(log, log', opening + 1, watermark);
  }

  /** What a run over a smaller source guarantees, it guarantees for the larger one too. */
  lemma JustifiedBeforeShrink(w: World, w': World, checkpoints: seq<Checkpoint>, job: Job, end: int, cp: Checkpoint)
    requires Extends(w, w') && Durable(w, job.plan.inputSequence) && Ordered(w.log)
    requires job.plan.start <= end < job.plan.end <= job.plan.inputSequence
    requires SafeWithin(w', job.plan.inputSequence, job.plan.end, end)
    requires Justified(w', checkpoints, Shrunk(job, end), cp)
    ensures Justified(w, checkpoints, job, cp)
  {
    var watermark := job.plan.inputSequence;
    SafeAfterShrink(w', watermark, job.plan.end, end, cp.end);
    SafeStable(w, w', watermark, job.plan.end, job.plan.end, cp.end);
    UnansweredStable(w.log, w'.log, job.opening, watermark);
    RangeStable(w.log, w'.log, cp.start, cp.end);
    PrefixOrdered(w.log, w'.log);
  }

  /** Shrinking to a safe end leaves strictly fewer boundaries to fall back to. */
  lemma FewerBoundaries(w: World, w': World, job: Job, end: int)
    requires Extends(w, w') && Durable(w, job.plan.inputSequence) && Ordered(w.log)
    requires job.plan.start <= end < job.plan.end <= job.plan.inputSequence
    requires SafeWithin(w', job.plan.inputSequence, job.plan.end, end)
    ensures |SafeBelow(w', Shrunk(job, end))| < |SafeBelow(w, job)|
  {
    var smaller, larger := SafeBelow(w', Shrunk(job, end)), SafeBelow(w, job);
    assert larger == SafeBelow(w', job) by { SafeBelowStable(w, w', job); }
    assert end in larger && end !in smaller;
    forall s | s in smaller ensures s in larger {
      SafeBelowShrunk(w', job, end, s);
    }
    SubsetCardinality(smaller + {end}, larger);
  }

  lemma {:induction false} SubsetCardinality<T>(a: set<T>, b: set<T>)
    requires a <= b
    ensures |a| <= |b|
  {
    if a != {} {
      var x :| x in a;
      SubsetCardinality(a - {x}, b - {x});
    }
  }

  // ----- what growth leaves alone -----

  lemma RangeEndsStable(w: World, w': World, plan: Selector.Plan)
    requires Ordered(w.log) && Extends(w, w') && plan.inputSequence <= Last(w.log)
    requires 0 < plan.start && plan.end <= plan.inputSequence
    ensures RangeEnds(w', plan.start, plan.end, plan.inputSequence) == RangeEnds(w, plan.start, plan.end, plan.inputSequence)
  {
    var source := Range(w.log, plan.start, plan.end);
    assert Range(w'.log, plan.start, plan.end) == source by { RangeStable(w.log, w'.log, plan.start, plan.end); }
    var e, g := Range(w.log, plan.start, plan.inputSequence), ListAtomicGroups(w, plan.start - 1, plan.end);
    var e', g' := Range(w'.log, plan.start, plan.inputSequence), ListAtomicGroups(w', plan.start - 1, plan.end);
    RangeOrdered(w.log, plan.start, plan.end);
    forall i | 0 <= i < |source| ensures IsSafeEnd(source[i], e, g) == IsSafeEnd(source[i], e', g') {
      SafeEventStable(w, w', plan, source[i]);
    }
    SafeEndsCongruence(source, e', e, g', g);
  }

  lemma SafeEventStable(w: World, w': World, plan: Selector.Plan, x: Event)
    requires Ordered(w.log) && Extends(w, w') && plan.inputSequence <= Last(w.log)
    requires 0 < plan.start <= x.sequence <= plan.end <= plan.inputSequence
    ensures IsSafeEnd(x, Range(w.log, plan.start, plan.inputSequence), ListAtomicGroups(w, plan.start - 1, plan.end)) <==>
      IsSafeEnd(x, Range(w'.log, plan.start, plan.inputSequence), ListAtomicGroups(w', plan.start - 1, plan.end))
  {
    RangeSafeEvent(w, plan.start, plan.end, plan.inputSequence, x);
    RangeSafeEvent(w', plan.start, plan.end, plan.inputSequence, x);
    ToolCutStable(w, w', x.sequence);
    OpeningCutStable(w, w', x.sequence, plan.end, plan.end);
    SettledStable(w, w', plan.inputSequence, x);
  }

  lemma PrefixesStable(w: World, w': World, plan: Selector.Plan)
    requires Ordered(w.log) && Extends(w, w') && plan.inputSequence <= Last(w.log)
    requires 0 < plan.start && plan.end <= plan.inputSequence
    ensures PrefixesOf(w', plan) == PrefixesOf(w, plan)
  {
    RangeEndsStable(w, w', plan);
    RangeStable(w.log, w'.log, plan.start, plan.end);
    RangeStable(w.log, w'.log, plan.start, plan.inputSequence);
  }

  lemma CompleteStable(w: World, w': World, plan: Selector.Plan)
    requires Ordered(w'.log) && w.log <= w'.log && plan.end <= plan.inputSequence <= Last(w.log)
    ensures MissesEvents(w.log, plan) == MissesEvents(w'.log, plan)
  {
    RangeStable(w.log, w'.log, plan.start, plan.end);
    RangeStable(w.log, w'.log, plan.start, plan.inputSequence);
  }

  lemma RestStable(w: World, w': World, job: Job)
    requires Ordered(w'.log) && w.log <= w'.log && job.plan.inputSequence <= Last(w.log)
    ensures Range(w'.log, job.plan.end + 1, job.plan.inputSequence) == Range(w.log, job.plan.end + 1, job.plan.inputSequence)
    ensures Unanswered(w'.log, job.opening, job.plan.inputSequence) == Unanswered(w.log, job.opening, job.plan.inputSequence)
  {
    RangeStable(w.log, w'.log, job.plan.end + 1, job.plan.inputSequence);
    UnansweredStable(w.log, w'.log, job.opening, job.plan.inputSequence);
  }

  /** Whatever commits after the start of a run with a durable watermark, the run sees the same. */
  lemma SeenStable(w: World, w': World, job: Job)
    requires Extends(w, w') && Durable(w, job.plan.inputSequence) && ValidJob(job)
    ensures Seen(w', job) == Seen(w, job) && Durable(w', job.plan.inputSequence)
  {
    PrefixOrdered(w.log, w'.log);
    PrefixesStable(w, w', job.plan);
    CompleteStable(w, w', job.plan);
    RestStable(w, w', job);
  }

  lemma RoundEarlier(s: Scene, w': World, job: Job, initial: Option<Claim>, c: Conditions, failed: bool, next: Next)
    requires Extends(s.world, w') && Durable(s.world, job.plan.inputSequence)
    requires Round(Seen(w', job), s.checkpoints, s.produced, job, initial, c, failed, next)
    ensures Round(Seen(s.world, job), s.checkpoints, s.produced, job, initial, c, failed, next)
  {
    if ValidJob(job) {
      SeenStable(s.world, w', job);
    } else {
      InvalidRound(Seen(w', job), Seen(s.world, job), s.checkpoints, s.produced, job, initial, c, failed, next);
    }
  }

  lemma InvalidRound(v: View, v': View, checkpoints: seq<Checkpoint>, produced: map<nat, Checkpoint>, job: Job, initial: Option<Claim>,
                     c: Conditions, failed: bool, next: Next)
    requires !ValidJob(job) && Round(v, checkpoints, produced, job, initial, c, failed, next)
    ensures Round(v', checkpoints, produced, job, initial, c, failed, next)
  {
  }

  /** A run seen from an earlier world. */
  lemma RunsEarlier(s: Scene, w': World, job: Job, initial: Option<Claim>, env: nat -> Conditions, n: nat,
                    ends: seq<int>, failed: bool, result: RunResult)
    requires Extends(s.world, w') && Durable(s.world, job.plan.inputSequence)
    requires Runs(s.(world := w'), job, initial, env, n, ends, failed, result)
    ensures Runs(s, job, initial, env, n, ends, failed, result)
  {
    var p, q := RoundIn(s.(world := w'), failed), RoundIn(s, failed);
    forall end, claim, c, next | p(Shrunk(job, end), claim, c, next) ensures q(Shrunk(job, end), claim, c, next) {
      RoundEarlier(s, w', Shrunk(job, end), claim, c, failed, next);
    }
    StepsImply(p, q, job, initial, env, n, ends, result);
  }

  lemma RunsMonotone(s: Scene, job: Job, initial: Option<Claim>, env: nat -> Conditions, n: nat,
                     ends: seq<int>, failed: bool, failed': bool, result: RunResult)
    requires (failed ==> failed') && Runs(s, job, initial, env, n, ends, failed, result)
    ensures Runs(s, job, initial, env, n, ends, failed', result)
  {
    var p, q := RoundIn(s, failed), RoundIn(s, failed');
    forall end, claim, c, next | p(Shrunk(job, end), claim, c, next) ensures q(Shrunk(job, end), claim, c, next) {
      RoundMonotone(Seen(s.world, Shrunk(job, end)), s.checkpoints, s.produced, Shrunk(job, end), claim, c, failed, failed', next);
    }
    StepsImply(p, q, job, initial, env, n, ends, result);
  }

  /** After growth, the world still shows what was seen. */
  lemma StillSeen(w: World, w': World, job: Job, v: View)
    requires Extends(w, w') && Durable(w, job.plan.inputSequence) && ValidJob(job) && v == Seen(w, job)
    ensures PrefixesOf(w', job.plan) == v.prefixes && Range(w'.log, job.plan.start, job.plan.end) == v.prefixes.source
    ensures MissesEvents(w'.log, job.plan) == !v.complete
    ensures Range(w'.log, job.plan.end + 1, job.plan.inputSequence) == v.rest
    ensures Unanswered(w'.log, job.opening, job.plan.inputSequence) == v.unanswered
  {
    SeenStable(w, w', job);
  }

  // ----- choices of the environment -----

  method AnyBool() returns (b: bool) { b := *; }

  method AnyKind() returns (k: Option<ErrorKind>) { k := *; }

  // ----- the boundary window -----

  datatype Window = Window(source: seq<Event>, evidence: seq<Event>, groups: seq<AtomicGroup>)

  const PAGE: nat := 500

  /** Reading the groups after the events gives the safe ends of the current world. */
  lemma WindowEnds(w: World, plan: Selector.Plan)
    requires Ordered(w.log) && 0 < plan.start <= plan.end <= plan.inputSequence
    ensures SafeEnds(Range(w.log, plan.start, plan.end), Evidence(w.log, plan), ListAtomicGroups(w, plan.start - 1, plan.end)) ==
      RangeEnds(w, plan.start, plan.end, plan.inputSequence)
  {
    var source, eager := Range(w.log, plan.start, plan.end), Range(w.log, plan.start, plan.inputSequence);
    if Evidence(w.log, plan) != eager {
      UpToMonotone(w.log, plan.end, plan.inputSequence);
      UpToMonotone(w.log, plan.start - 1, plan.end);
      RangeOrdered(w.log, plan.start, plan.inputSequence);
      assert source <= eager;
      LazyEvidenceRefinesEager(source, eager, ListAtomicGroups(w, plan.start - 1, plan.end));
    }
  }

  /** The evidence that has been read stays the evidence. */
  ghost predicate Evident(log: seq<Event>, plan: Selector.Plan, source: seq<Event>, evidence: seq<Event>) {
    && source == Range(log, plan.start, plan.end) && plan.end <= Last(log)
    && evidence == Evidence(log, plan)
    && (plan.end == plan.inputSequence || !NeedsLaterEvidence(source) || plan.inputSequence <= Last(log))
  }

  lemma EvidentStable(log: seq<Event>, log': seq<Event>, plan: Selector.Plan, source: seq<Event>, evidence: seq<Event>)
    requires Ordered(log') && log <= log' && plan.end <= plan.inputSequence
    requires Evident(log, plan, source, evidence)
    ensures Evident(log', plan, source, evidence)
  {
    PrefixOrdered(log, log');
    RangeStable(log, log', plan.start, plan.end);
    if plan.inputSequence <= Last(log) {
      RangeStable(log, log', plan.start, plan.inputSequence);
    }
  }

  lemma LaterIsEvident(log: seq<Event>, log': seq<Event>, plan: Selector.Plan, source: seq<Event>, later: seq<Event>)
    requires Ordered(log') && log <= log' && 0 < plan.start <= plan.end < plan.inputSequence && plan.end <= Last(log)
    requires source == Range(log, plan.start, plan.end) && NeedsLaterEvidence(source)
    requires later == Range(log', plan.start, plan.inputSequence) && Closed(later, plan.start, plan.inputSequence)
    ensures Evident(log', plan, source, later)
  {
    ClosedIsDurable(log', plan.start, plan.inputSequence);
    RangeStable(log, log', plan.start, plan.end);
  }

  /** The source and its evidence, which reaches past the source only when an input needs it. */
  method LoadEvidence(store: ExecutionStore, plan: Selector.Plan, source: seq<Event>) returns (ok: bool, evidence: seq<Event>)
    requires Ordered(store.log) && 0 < plan.start <= plan.end <= plan.inputSequence && plan.end <= Last(store.log)
    requires source == Range(store.log, plan.start, plan.end)
    modifies store`log, store`tools, store`failures
    ensures Extends(old(store.State()), store.State())
    ensures ok ==> Evident(store.log, plan, source, evidence)
    ensures !ok ==> store.failures != old(store.failures) || MissesEvents(store.log, plan)
    ensures ok ==> store.failures == old(store.failures)
    ensures old(store.failures) <= store.failures
  {
    ExtendsReflexive(store.State());
    evidence := source;
    if plan.end == plan.inputSequence {
      return true, evidence;
    }
    var needs := SourceNeedsLaterEvidence(source);
    if !needs {
      return true, evidence;
    }
    ghost var log0 := store.log;
    var later := store.LoadClosedRange(plan.start, plan.inputSequence, PAGE);
    if !later.Loaded? {
      return false, evidence;
    }
    LaterIsEvident(log0, store.log, plan, source, later.events);
    return true, later.events;
  }

  /** loadCompactionBoundaryWindow: reads evidence past the source only when an input needs it. */
  method LoadWindow(store: ExecutionStore, plan: Selector.Plan) returns (ok: bool, window: Window)
    requires Ordered(store.log) && 0 < plan.start <= plan.end <= plan.inputSequence
    modifies store`log, store`tools, store`failures
    ensures Extends(old(store.State()), store.State())
    ensures ok ==> Closed(window.source, plan.start, plan.end)
    ensures ok ==> Shows(window, PrefixesOf(store.State(), plan))
    ensures !ok ==> store.failures != old(store.failures) || MissesEvents(store.log, plan)
    ensures old(store.failures) <= store.failures
  {
    window := Window([], [], []);
    ghost var w0 := store.State();
    var loaded := store.LoadClosedRange(plan.start, plan.end, PAGE);
    if !loaded.Loaded? {
      return false, window;
    }
    ghost var w1 := store.State();
    ClosedIsDurable(store.log, plan.start, plan.end);
    var evidence;
    ok, evidence := LoadEvidence(store, plan, loaded.events);
    ExtendsTransitive(w0, w1, store.State());
    if !ok {
      return;
    }
    ok, window := ListWindow(store, plan, loaded.events, evidence, w0);
  }

  /** The window's events and groups give these prefixes. */
  ghost predicate Shows(window: Window, p: Prefixes) {
    && window.source == p.source && window.evidence == p.evidence
    && SafeEnds(window.source, window.evidence, window.groups) == p.ends
  }

  /** The groups, read after the events. */
  method ListWindow(store: ExecutionStore, plan: Selector.Plan, source: seq<Event>, evidence: seq<Event>, ghost w0: World)
    returns (ok: bool, window: Window)
    requires Ordered(store.log) && Extends(w0, store.State()) && 0 < plan.start <= plan.end <= plan.inputSequence
    requires Evident(store.log, plan, source, evidence)
    modifies store`log, store`tools, store`failures
    ensures Extends(w0, store.State())
    ensures ok ==> window.source == source && Shows(window, PrefixesOf(store.State(), plan))
    ensures ok <==> store.failures == old(store.failures)
    ensures old(store.failures) <= store.failures
  {
    ghost var w2 := store.State();
    store.Interfere();
    ExtendsTransitive(w0, w2, store.State());
    EvidentStable(w2.log, store.log, plan, source, evidence);
    var fails := AnyBool();
    if fails {
      store.failures := store.failures + 1;
      return false, Window([], [], []);
    }
    WindowEnds(store.State(), plan);
    return true, Window(source, evidence, ListAtomicGroups(World(store.log, store.tools), plan.start - 1, plan.end));
  }

  // ----- the next smaller source -----

  /** nextSmallerSourceEnd: the preferred safe end below the current one, if there is any. */
  method NextSmallerSourceEnd(store: ExecutionStore, plan: Selector.Plan) returns (r: ShrinkResult)
    requires Ordered(store.log) && 0 < plan.start <= plan.end <= plan.inputSequence
    modifies store`log, store`tools, store`failures
    ensures Extends(old(store.State()), store.State())
    ensures r.Smaller? ==> PicksBelow(PrefixesOf(store.State(), plan), plan, r.end)
    ensures r.Smaller? ==>
      plan.start <= r.end < plan.end && SafeWithin(store.State(), plan.inputSequence, plan.end, r.end)
    ensures r.NothingSmaller? ==> Below(PrefixesOf(store.State(), plan).ends, plan.end) == [] && NoneBelow(store.State(), plan)
    ensures r.RenderFailed? ==>
      store.failures != old(store.failures) || MissesEvents(store.log, plan) || Unrenderable(Range(store.log, plan.start, plan.end))
    ensures old(store.failures) <= store.failures
  {
    var ok, window := LoadWindow(store, plan);
    if !ok {
      return RenderFailed;
    }
    RangeOrdered(store.log, plan.start, plan.end);
    r := NextSmallerEnd(plan.start, plan.end, window.source, window.evidence, window.groups);
    if r.Smaller? {
      SmallerIsPicked(store.State(), plan, r.end);
      PickedIsSafe(store.State(), plan, r.end);
    } else if r.NothingSmaller? {
      NothingSmallerMeans(store.State(), plan);
    }
  }

  /** No boundary below the planned end is safe. */
  ghost predicate NoneBelow(w: World, plan: Selector.Plan) {
    forall s :: plan.start <= s < plan.end ==> !SafeWithin(w, plan.inputSequence, plan.end, s)
  }

  lemma BelowKeeps(ends: seq<int>, end: int, s: int)
    requires s in ends && s != end
    ensures s in Below(ends, end)
  {
    var i :| 0 <= i < |ends| && ends[i] == s;
    assert i < |Below(ends, end)| && Below(ends, end)[i] == s;
  }

  /** The safe ends below the planned end are its safe boundaries below. */
  lemma BelowMembers(w: World, plan: Selector.Plan, s: int)
    requires Ordered(w.log) && 0 < plan.start <= plan.end <= plan.inputSequence
    ensures s in Below(PrefixesOf(w, plan).ends, plan.end) <==>
      plan.start <= s < plan.end && SafeWithin(w, plan.inputSequence, plan.end, s)
  {
    var ends := PrefixesOf(w, plan).ends;
    RangeEndsMembers(w, plan.start, plan.end, plan.inputSequence, s);
    if s in Below(ends, plan.end) {
      RangeEndsAscending(w, plan);
      RangeEndsBelow(w, plan, ends);
    } else if s in ends && s != plan.end {
      BelowKeeps(ends, plan.end, s);
    }
  }

  lemma RangeEndsAscending(w: World, plan: Selector.Plan)
    requires Ordered(w.log)
    ensures Ascending(PrefixesOf(w, plan).ends)
  {
    RangeOrdered(w.log, plan.start, plan.end);
    SafeEndsAscending(Range(w.log, plan.start, plan.end), Range(w.log, plan.start, plan.inputSequence),
                      ListAtomicGroups(w, plan.start - 1, plan.end));
  }

  /** Only the last safe end can be the end of the source. */
  lemma RangeEndsBelow(w: World, plan: Selector.Plan, ends: seq<int>)
    requires Ordered(w.log) && 0 < plan.start <= plan.end <= plan.inputSequence
    requires ends == RangeEnds(w, plan.start, plan.end, plan.inputSequence) && Ascending(ends)
    ensures forall s :: s in Below(ends, plan.end) ==> s in ends && s != plan.end
  {
    forall s | s in Below(ends, plan.end) ensures s in ends && s != plan.end {
      var i :| 0 <= i < |Below(ends, plan.end)| && Below(ends, plan.end)[i] == s;
      assert ends[i] == s;
      assert ends[|ends| - 1] in ends;
      RangeEndsMembers(w, plan.start, plan.end, plan.inputSequence, ends[|ends| - 1]);
    }
  }

  lemma NothingSmallerMeans(w: World, plan: Selector.Plan)
    requires Ordered(w.log) && 0 < plan.start <= plan.end <= plan.inputSequence
    ensures Below(PrefixesOf(w, plan).ends, plan.end) == [] <==> NoneBelow(w, plan)
  {
    var below := Below(PrefixesOf(w, plan).ends, plan.end);
    forall s ensures s in below <==> plan.start <= s < plan.end && SafeWithin(w, plan.inputSequence, plan.end, s) {
      BelowMembers(w, plan, s);
    }
    if |below| > 0 {
      var s := below[0];
      BelowMembers(w, plan, s);
      assert plan.start <= s < plan.end && SafeWithin(w, plan.inputSequence, plan.end, s);
    }
  }

  /** What is picked is a safe boundary below the planned end. */
  lemma PickedIsSafe(w: World, plan: Selector.Plan, end: int)
    requires Ordered(w.log) && 0 < plan.start <= plan.end <= plan.inputSequence
    requires PicksBelow(PrefixesOf(w, plan), plan, end)
    ensures plan.start <= end < plan.end && SafeWithin(w, plan.inputSequence, plan.end, end)
  {
    BelowMembers(w, plan, end);
  }

  lemma SmallerIsPicked(w: World, plan: Selector.Plan, end: int)
    requires Ordered(w.log) && 0 < plan.start <= plan.end <= plan.inputSequence
    requires Closed(Range(w.log, plan.start, plan.end), plan.start, plan.end) && Render(Range(w.log, plan.start, plan.end)).Some?
    requires var p := PrefixesOf(w, plan); var below := Below(p.ends, plan.end);
      |below| > 0 &&
      end == ShrinkChoice(below, CompleteTurnEnds(p.source, p.evidence, below),
                          Within(PrefixTable(p.source), plan.start, RenderedLength(p.source) / 2))
    ensures PicksBelow(PrefixesOf(w, plan), plan, end)
  {
    var p := PrefixesOf(w, plan);
    var below := Below(p.ends, plan.end);
    RangeEndsAscending(w, plan);
    CompleteTurnEndsMembers(p.source, p.evidence, below);
    forall s | s in below ensures 0 < s && 0 <= s - plan.start < |p.source| {
      BelowMembers(w, plan, s);
    }
    ShrinkChoiceMeans(p.source, plan.start, below, CompleteTurnEnds(p.source, p.evidence, below));
  }

  // ----- the stages of a run -----

  datatype Admission = Refused(result: RunResult) | Admitted(protectOpening: bool, contextId: nat)

  /** From validation to the claimed model call. A run is refused only for a reason, and admitted only
      without one. */
  method Admit(store: ExecutionStore, job: Job, initial: Option<Claim>, c: Conditions) returns (r: Admission)
    requires Ordered(store.log)
    modifies store`log, store`tools, store`failures
    ensures Extends(old(store.State()), store.State()) && old(store.failures) <= store.failures
    ensures r.Refused? ==> !r.result.Completed? && !r.result.TerminalFailure?
    ensures r.Refused? ==>
      TurnedAway(Unanswered(store.log, job.opening, job.plan.inputSequence), store.checkpoints, store.produced, job, initial, c,
                 store.failures != old(store.failures), r.result)
    ensures r.Admitted? ==>
      Admissible(Unanswered(store.log, job.opening, job.plan.inputSequence), store.checkpoints, job, initial, c)
    ensures r.Admitted? ==> r.protectOpening == Unanswered(store.log, job.opening, job.plan.inputSequence)
    ensures r.Admitted? ==> r.contextId == WorkingClaim(initial, c.first, c.second).value.contextId
  {
    ExtendsReflexive(store.State());
    if !ValidJob(job) {
      return Refused(RunFailed(InvalidPlan));
    }
    if initial.Some? {
      if !MatchesClaim(job, initial.value) {
        return Refused(RunFailed(ClaimMismatch));
      }
      if !initial.value.claimed {
        var result := ResultForUnclaimed(store, initial.value);
        return Refused(result);
      }
    }
    var protect := store.OpeningRequiresVerbatimRetention(job.opening, job.plan.inputSequence, PAGE);
    if protect.AnswerFailed? {
      return Refused(RunFailed(StoreRefused));
    }
    if protect.value && job.plan.end >= job.opening {
      return Refused(RunFailed(OpeningNotRetained));
    }
    if job.plan.start != NextStart(store.checkpoints, job.plan.inputSequence) {
      return Refused(RunFailed(WrongStart));
    }
    var refused := AnyBool();
    if refused {
      store.failures := store.failures + 1;
      return Refused(RunFailed(StoreRefused));
    }
    if initial.None? {
      var claim := OwnClaim(c.first, c.second);
      if claim.None? {
        return Refused(RunFailed(StoreRefused));
      }
      if !claim.value.claimed {
        var result := ResultForUnclaimed(store, claim.value);
        return Refused(result);
      }
      return Admitted(protect.value, claim.value.contextId);
    }
    return Admitted(protect.value, initial.value.contextId);
  }

  /** The store's answer to the run's claim, or to the next one after a scheduled retry. */
  method OwnClaim(first: Option<Claim>, second: Option<Claim>) returns (claim: Option<Claim>)
    ensures claim == WorkingClaim(None, first, second)
  {
    claim := first;
    if claim.Some? && !claim.value.claimed && claim.value.state == Failed && claim.value.recovery == Retry {
      claim := second;
    }
  }

  /** resultForUnclaimed: the outcome of the run that holds, or held, the claim. */
  method ResultForUnclaimed(store: ExecutionStore, claim: Claim) returns (result: RunResult)
    modifies store`failures
    ensures Unclaimed(store.produced, claim, store.failures != old(store.failures), result)
    ensures old(store.failures) <= store.failures
    ensures !result.Completed? && !result.TerminalFailure?
  {
    match claim.state {
      case Succeeded =>
        var fails := AnyBool();
        if fails {
          store.failures := store.failures + 1;
          return RunFailed(StoreRefused);
        }
        if claim.contextId !in store.produced {
          return RunFailed(MissingCheckpoint);
        }
        return CompletedEarlier(store.produced[claim.contextId]);
      case Failed =>
        if claim.recovery == Retry {
          return RetryScheduled;
        }
        return Terminal;
      case Canceled => return Terminal;
      case Started => return RunFailed(NotAdvanceable);
      case OtherState => return RunFailed(UnsupportedState);
    }
  }

  /** Loading the source and finding the largest request that fits: the source is sent only when
      its planned end is itself a safe end, and shrinks to what the search chose otherwise. */
  method PrepareRequest(store: ExecutionStore, job: Job, setup: Setup) returns (r: Attempt)
    requires Ordered(store.log) && ValidJob(job)
    modifies store`log, store`tools, store`failures
    ensures Extends(old(store.State()), store.State()) && old(store.failures) <= store.failures
    ensures Prepared(PrefixesOf(store.State(), job.plan), job.plan, setup,
                     store.failures != old(store.failures) || MissesEvents(store.log, job.plan), r)
    ensures !r.Summarized?
    ensures r.Shrinks? ==> job.plan.start <= r.end < job.plan.end
    ensures r.Shrinks? ==> SafeWithin(store.State(), job.plan.inputSequence, job.plan.end, r.end)
    ensures r.Ready? ==> SafeWithin(store.State(), job.plan.inputSequence, job.plan.end, job.plan.end)
    ensures r.Ready? ==> job.plan.end <= Last(store.log)
    ensures r.Ready? ==> Render(Range(store.log, job.plan.start, job.plan.end)) == Some(r.text)
    ensures r.Fails? ==> !ClaimsSmallest(r.cause)
  {
    var plan := job.plan;
    ExtendsReflexive(store.State());
    match setup {
      case SetupInterrupted => return Abort(Unclassified);
      case SetupFails(kind) => return Fails(OutsideCause(kind));
      case SetupDone(_, _) =>
    }
    var ok, window := LoadWindow(store, plan);
    if !ok {
      var kind := AnyKind();
      return Fails(OutsideCause(kind));
    }
    ghost var p := PrefixesOf(store.State(), plan);
    forall s | s in p.ends ensures s <= plan.end {
      RangeEndsMembers(store.State(), plan.start, plan.end, plan.inputSequence, s);
    }
    r := ChooseRequest(plan, window, setup, p);
    if r.Shrinks? {
      RangeEndsMembers(store.State(), plan.start, plan.end, plan.inputSequence, r.end);
    } else if r.Ready? {
      RangeEndsMembers(store.State(), plan.start, plan.end, plan.inputSequence, plan.end);
      ClosedIsDurable(store.log, plan.start, plan.end);
    }
  }

  /** The request for a loaded window: send it, shrink the source, or fail. */
  method ChooseRequest(plan: Selector.Plan, window: Window, setup: Setup, ghost p: Prefixes) returns (r: Attempt)
    requires plan.start <= plan.end && Closed(window.source, plan.start, plan.end) && setup.SetupDone?
    requires Shows(window, p) && forall s :: s in p.ends ==> s <= plan.end
    ensures Prepared(p, plan, setup, false, r)
    ensures r.Fails? || r.Shrinks? || r.Ready?
    ensures r.Shrinks? ==> r.end in p.ends && r.end < plan.end
    ensures r.Ready? ==> plan.end in p.ends && Render(p.source) == Some(r.text)
    ensures r.Fails? ==> !ClaimsSmallest(r.cause)
  {
    var candidates := SafeCompactionSourceEnds(window.source, window.evidence, window.groups);
    var turns := CompleteTurnSourceEnds(window.source, window.evidence, candidates);
    var source := Source(plan.start, window.source, setup.client, setup.output);
    var fit := LargestFittingRequest(source, candidates, turns);
    assert Searched(p, plan, setup, fit);
    match fit {
      case NoRequest =>
        r := Fails(SourceIrreducible(NothingFits));
      case PrepareFailed =>
        var kind := AnyKind();
        r := Fails(OutsideCause(kind));
      case Chosen(request) =>
        ChosenIsCandidate(source, candidates, turns, window.evidence, fit);
        if request.end < plan.end {
          r := Shrinks(request.end);
        } else {
          WholeSource(plan, source, request);
          r := Ready(Render(window.source).value);
        }
    }
    assert Follow(p, plan, fit, r);
  }

  /** A request that reaches the planned end is over the whole source, which renders. */
  lemma WholeSource(plan: Selector.Plan, s: Source, request: Request)
    requires s.start == plan.start <= plan.end == request.end && Closed(s.events, plan.start, plan.end) && RequestFits(s, request)
    ensures Render(s.events).Some?
  {
    assert s.events[..|s.events|] == s.events;
  }

  lemma ChosenIsCandidate(s: Source, candidates: seq<int>, turns: seq<int>, evidence: seq<Event>, r: FitResult)
    requires turns == CompleteTurnEnds(s.events, evidence, candidates)
    requires |candidates| > 0 && r.Chosen? && exists k :: Decides(s, candidates, turns, k, r)
    ensures r.request.end in candidates && RequestFits(s, r.request)
  {
    var k :| Decides(s, candidates, turns, k, r);
    CompleteTurnEndsMembers(s.events, evidence, candidates);
    assert |turns| > 0 ==> turns[0] in turns;
    TargetsFit(s, Targets(candidates, turns), candidates, BestAt(s, candidates, k), EndAt(candidates, k));
  }

  const MAX_PROGRESSIVE_CHECKPOINTS: int := 3

  /** BoundedProgressiveCheckpointPolicy: may a checkpoint be published that still leaves the
      next request over budget?  None when the lineage count is invalid. */
  function ProgressiveAllowed(prior: int, candidate: int, sourceRemains: bool, count: int): Option<bool> {
    if candidate <= prior || !sourceRemains then Some(false)
    else if count < 0 then None
    else Some(count < MAX_PROGRESSIVE_CHECKPOINTS)
  }

  /** A truncated reply: the next smaller source if there is one, an error if it cannot be told. */
  method Shorten(store: ExecutionStore, job: Job, ghost w0: World, ghost v: View) returns (r: Option<Attempt>)
    requires Ordered(store.log) && ValidJob(job) && Extends(w0, store.State())
    requires Durable(w0, job.plan.inputSequence) ==> v == Seen(w0, job)
    modifies store`log, store`tools, store`failures
    ensures Extends(w0, store.State()) && old(store.failures) <= store.failures
    ensures r.Some? ==> r.value.Shrinks? || r.value == Abort(StoreRefused)
    ensures r.Some? && r.value.Shrinks? ==> SafeReplacement(store.State(), job, Replace(r.value.end))
    ensures Durable(w0, job.plan.inputSequence) ==> Shortened(v, job, store.failures != old(store.failures), r)
  {
    ghost var w1 := store.State();
    var next := NextSmallerSourceEnd(store, job.plan);
    ExtendsTransitive(w0, w1, store.State());
    if Durable(w0, job.plan.inputSequence) { StillSeen(w0, store.State(), job, v); }
    if next.RenderFailed? {
      return Some(Abort(StoreRefused));
    }
    if next.Smaller? {
      return Some(Shrinks(next.end));
    }
    return None;
  }

  ghost predicate Shortened(v: View, job: Job, failed: bool, r: Option<Attempt>) {
    match r
    case None => Below(v.prefixes.ends, job.plan.end) == []
    case Some(a) => (Disturbed(v, failed) && a == Abort(StoreRefused)) || (a.Shrinks? && PicksBelow(v.prefixes, job.plan, a.end))
  }

  /** Judging the model's reply. A summary is accepted only from a response without a problem that
      saves tokens, and only if the next request fits or progress may be made step by step; a
      truncated reply shrinks the source whenever a smaller one is left. */
  method Summarize(store: ExecutionStore, job: Job, protectOpening: bool, text: string, c: Conditions, ghost w0: World, ghost v: View)
    returns (r: Attempt)
    requires Ordered(store.log) && ValidJob(job) && Extends(w0, store.State())
    requires Durable(w0, job.plan.inputSequence) ==> v == Seen(w0, job)
    modifies store`log, store`tools, store`failures
    ensures Extends(w0, store.State()) && old(store.failures) <= store.failures
    ensures !r.Ready?
    ensures r.Shrinks? ==> SafeReplacement(store.State(), job, Replace(r.end))
    ensures r.Summarized? ==> HoldsSummary(c.reply) && r.summary == c.reply.summary
    ensures r.Summarized? ==> Saves(PriorSummary(store.checkpoints, job.plan.inputSequence), text, r.summary)
    ensures r.Fails? ==> !ClaimsSmallest(r.cause)
    ensures Durable(w0, job.plan.inputSequence) ==>
      (Disturbed(v, store.failures != old(store.failures)) && r == Abort(StoreRefused)) ||
      Judged(v, store.checkpoints, job, protectOpening, text, c.reply, c.projection, r)
  {
    match c.reply {
      case Interrupted => r := Abort(Unclassified);
      case ReplyError(kind) =>
        r := if kind.None? then Abort(Unclassified) else Fails(Provider(kind.value));
      case Malformed => r := Fails(Provider(OtherError));
      case Response(_, _, _) =>
        r := JudgeResponse(store, job, protectOpening, text, c, w0, v);
    }
  }

  /** Judging a well-formed response: shorten the source after a truncated one, else judge its text. */
  method JudgeResponse(store: ExecutionStore, job: Job, protectOpening: bool, text: string, c: Conditions, ghost w0: World, ghost v: View)
    returns (r: Attempt)
    requires Ordered(store.log) && ValidJob(job) && Extends(w0, store.State()) && c.reply.Response?
    requires Durable(w0, job.plan.inputSequence) ==> v == Seen(w0, job)
    modifies store`log, store`tools, store`failures
    ensures Extends(w0, store.State()) && old(store.failures) <= store.failures
    ensures !r.Ready?
    ensures r.Shrinks? ==> SafeReplacement(store.State(), job, Replace(r.end))
    ensures r.Summarized? ==> HoldsSummary(c.reply) && r.summary == c.reply.summary
    ensures r.Summarized? ==> Saves(PriorSummary(store.checkpoints, job.plan.inputSequence), text, r.summary)
    ensures r.Fails? ==> !ClaimsSmallest(r.cause)
    ensures Durable(w0, job.plan.inputSequence) ==>
      (Disturbed(v, store.failures != old(store.failures)) && r == Abort(StoreRefused)) ||
      Judged(v, store.checkpoints, job, protectOpening, text, c.reply, c.projection, r)
  {
    if c.reply.stop == MaxTokens {
      var shorter := Shorten(store, job, w0, v);
      if shorter.Some? {
        if Durable(w0, job.plan.inputSequence) {
          ShortenedIsJudged(v, store.checkpoints, job, protectOpening, text, c.reply, c.projection, store.failures != old(store.failures),
                            shorter.value);
        }
        return shorter.value;
      }
    }
    r := JudgeSummary(store, job, protectOpening, text, c, w0, v);
  }

  lemma ShortenedIsJudged(v: View, checkpoints: seq<Checkpoint>, job: Job, protect: bool, text: string, reply: Reply,
                          projection: Projection, failed: bool, r: Attempt)
    requires reply.Response? && reply.stop == MaxTokens && Shortened(v, job, failed, Some(r))
    ensures (Disturbed(v, failed) && r == Abort(StoreRefused)) || Judged(v, checkpoints, job, protect, text, reply, projection, r)
  {
  }

  /** A response that is not truncated, or cannot be shortened, is judged by its text. */
  lemma JudgedFrom(v: View, checkpoints: seq<Checkpoint>, job: Job, protect: bool, text: string, reply: Reply,
                   projection: Projection, r: Attempt)
    requires reply.Response? && (reply.stop == MaxTokens ==> Below(v.prefixes.ends, job.plan.end) == [])
    requires SummaryJudged(v.rest, checkpoints, job, protect, text, reply, projection, r)
    ensures Judged(v, checkpoints, job, protect, text, reply, projection, r)
  {
  }

  /** A truncated reply shrinks the source to the preferred smaller one whenever a boundary below is safe. */
  lemma TruncatedShrinks(w: World, checkpoints: seq<Checkpoint>, job: Job, protect: bool, text: string, reply: Reply,
                         projection: Projection, r: Attempt, s: int)
    requires Ordered(w.log) && ValidJob(job) && Judged(Seen(w, job), checkpoints, job, protect, text, reply, projection, r)
    requires reply.Response? && reply.stop == MaxTokens
    requires job.plan.start <= s < job.plan.end && SafeWithin(w, job.plan.inputSequence, job.plan.end, s)
    ensures r.Shrinks? && PicksBelow(PrefixesOf(w, job.plan), job.plan, r.end)
    ensures job.plan.start <= r.end < job.plan.end && SafeWithin(w, job.plan.inputSequence, job.plan.end, r.end)
  {
    BelowMembers(w, job.plan, s);
    PickedIsSafe(w, job.plan, r.end);
  }

  /** The part of the judgement that does not look for a smaller source. */
  method JudgeSummary(store: ExecutionStore, job: Job, protectOpening: bool, text: string, c: Conditions, ghost w0: World, ghost v: View)
    returns (r: Attempt)
    requires Ordered(store.log) && ValidJob(job) && c.reply.Response? && Extends(w0, store.State())
    requires Durable(w0, job.plan.inputSequence) ==> v == Seen(w0, job)
    requires Durable(w0, job.plan.inputSequence) && c.reply.stop == MaxTokens ==> Below(v.prefixes.ends, job.plan.end) == []
    modifies store`log, store`tools, store`failures
    ensures Extends(w0, store.State()) && old(store.failures) <= store.failures
    ensures r.Abort? || r.Fails? || r.Summarized?
    ensures r.Summarized? ==> HoldsSummary(c.reply) && r.summary == c.reply.summary
    ensures r.Summarized? ==> Saves(PriorSummary(store.checkpoints, job.plan.inputSequence), text, r.summary)
    ensures r.Fails? ==> !ClaimsSmallest(r.cause)
    ensures Durable(w0, job.plan.inputSequence) ==>
      (store.failures != old(store.failures) && r == Abort(StoreRefused)) ||
      Judged(v, store.checkpoints, job, protectOpening, text, c.reply, c.projection, r)
  {
    ghost var w1 := store.State();
    r := JudgeText(store, job, protectOpening, text, c);
    ExtendsTransitive(w0, w1, store.State());
    if Durable(w0, job.plan.inputSequence) && !(store.failures != old(store.failures) && r == Abort(StoreRefused)) {
      assert Range(store.log, job.plan.end + 1, job.plan.inputSequence) == v.rest by { StillSeen(w0, store.State(), job, v); }
      JudgedFrom(v, store.checkpoints, job, protectOpening, text, c.reply, c.projection, r);
    }
  }

  /** validateCompactionResponse, validateSummaryReduction and the projection. */
  method JudgeText(store: ExecutionStore, job: Job, protectOpening: bool, text: string, c: Conditions) returns (r: Attempt)
    requires Ordered(store.log) && ValidJob(job) && c.reply.Response?
    modifies store`log, store`tools, store`failures
    ensures Extends(old(store.State()), store.State()) && old(store.failures) <= store.failures
    ensures r.Abort? || r.Fails? || r.Summarized?
    ensures r.Summarized? ==> HoldsSummary(c.reply) && r.summary == c.reply.summary
    ensures r.Summarized? ==> Saves(PriorSummary(store.checkpoints, job.plan.inputSequence), text, r.summary)
    ensures r.Fails? ==> !ClaimsSmallest(r.cause)
    ensures
      || (store.failures != old(store.failures) && r == Abort(StoreRefused))
      || SummaryJudged(Range(store.log, job.plan.end + 1, job.plan.inputSequence), store.checkpoints, job, protectOpening, text,
                       c.reply, c.projection, r)
  {
    ExtendsReflexive(store.State());
    AcceptedResponse(c.reply);
    var problem := ResponseProblem(c.reply);
    if problem.Some? {
      return Fails(problem.value);
    }
    ReducesMeans(PriorSummary(store.checkpoints, job.plan.inputSequence), text, c.reply.summary);
    if !Reduces(PriorSummary(store.checkpoints, job.plan.inputSequence), text, c.reply.summary) {
      return Fails(SummaryNotReduced);
    }
    r := CheckProjection(store, job, protectOpening, c.reply.summary, c.projection);
  }

  /** The next request with the candidate checkpoint in place must fit, or progress must remain. */
  method CheckProjection(store: ExecutionStore, job: Job, protectOpening: bool, summary: string, projection: Projection)
    returns (r: Attempt)
    requires Ordered(store.log) && ValidJob(job)
    modifies store`log, store`tools, store`failures
    ensures Extends(old(store.State()), store.State()) && old(store.failures) <= store.failures
    ensures r.Abort? || r.Fails? || r == Summarized(summary)
    ensures r.Fails? ==> !ClaimsSmallest(r.cause)
    ensures
      || (store.failures != old(store.failures) && r == Abort(StoreRefused))
      || Projected(Range(store.log, job.plan.end + 1, job.plan.inputSequence), store.checkpoints, job, protectOpening, summary, projection, r)
  {
    ExtendsReflexive(store.State());
    match projection {
      case BuildFails(kind) =>
        return if kind.None? then Abort(Unclassified) else Fails(Provider(kind.value));
      case ProjectionFits =>
      case OverBudget(count) =>
        var remains := store.HasRemainingSource(job.plan.end, job.plan.inputSequence, protectOpening, job.opening, PAGE);
        if remains.AnswerFailed? {
          return Abort(StoreRefused);
        }
        var refused := AnyBool();
        if refused {
          store.failures := store.failures + 1;
          return Abort(StoreRefused);
        }
        var prior := NextStart(store.checkpoints, job.plan.inputSequence) - 1;
        var allowed := ProgressiveAllowed(prior, job.plan.end, remains.value, count);
        if allowed.None? {
          return Abort(PolicyFailed);
        }
        if !allowed.value {
          return Fails(SourceIrreducible(ProgressDenied));
        }
    }
    return Summarized(summary);
  }

  // ----- the run -----

  /** What a run over `job` from world w0 with checkpoints before0 did. */
  ghost predicate Outcome(w0: World, before: seq<Checkpoint>, job: Job, result: RunResult, w1: World, after: seq<Checkpoint>) {
    && Extends(w0, w1)
    && (if result.Completed? then after == before + [result.checkpoint] else after == before)
    && (result.Completed? ==> result.checkpoint.eventSequence <= Last(w1.log))
    && (result.Completed? ==> Unpublished(before, result.checkpoint.watermark, result.checkpoint.end))
    && (result.Completed? && Durable(w0, job.plan.inputSequence) ==> Justified(w0, before, job, result.checkpoint))
  }

  lemma JustifiedEarlier(w: World, w': World, checkpoints: seq<Checkpoint>, job: Job, cp: Checkpoint)
    requires Extends(w, w') && Durable(w, job.plan.inputSequence) && job.plan.end <= job.plan.inputSequence
    requires Justified(w', checkpoints, job, cp)
    ensures Justified(w, checkpoints, job, cp)
  {
    PrefixOrdered(w.log, w'.log);
    SafeStable(w, w', job.plan.inputSequence, job.plan.end, job.plan.end, cp.end);
    UnansweredStable(w.log, w'.log, job.opening, job.plan.inputSequence);
    RangeStable(w.log, w'.log, cp.start, cp.end);
  }

  lemma SafeBelowStable(w: World, w': World, job: Job)
    requires Extends(w, w') && Durable(w, job.plan.inputSequence) && job.plan.end <= job.plan.inputSequence
    ensures SafeBelow(w, job) == SafeBelow(w', job)
  {
    forall s | job.plan.start <= s < job.plan.end
      ensures s in SafeBelow(w, job) <==> s in SafeBelow(w', job)
    {
      SafeStable(w, w', job.plan.inputSequence, job.plan.end, job.plan.end, s);
    }
  }

  /** An outcome seen from an earlier state. */
  lemma OutcomeEarlier(w: World, w0: World, before: seq<Checkpoint>, job: Job, result: RunResult, w1: World, after: seq<Checkpoint>)
    requires Extends(w, w0) && Outcome(w0, before, job, result, w1, after) && job.plan.end <= job.plan.inputSequence
    ensures Outcome(w, before, job, result, w1, after)
    ensures Durable(w, job.plan.inputSequence) ==> Durable(w0, job.plan.inputSequence) && SafeBelow(w, job) == SafeBelow(w0, job)
  {
    ExtendsTransitive(w, w0, w1);
    PrefixOrdered(w.log, w0.log);
    if Durable(w, job.plan.inputSequence) {
      SafeBelowStable(w, w0, job);
      if result.Completed? {
        JustifiedEarlier(w, w0, before, job, result.checkpoint);
      }
    }
  }

  /** An outcome over a smaller source, seen as an outcome over the larger one. */
  lemma OutcomeBeforeShrink(w0: World, before: seq<Checkpoint>, job: Job, end: int, result: RunResult, w1: World, after: seq<Checkpoint>)
    requires Outcome(w0, before, Shrunk(job, end), result, w1, after) && Ordered(w0.log)
    requires job.plan.start <= end < job.plan.end <= job.plan.inputSequence
    requires SafeWithin(w0, job.plan.inputSequence, job.plan.end, end)
    ensures Outcome(w0, before, job, result, w1, after)
    ensures Durable(w0, job.plan.inputSequence) ==> |SafeBelow(w0, Shrunk(job, end))| < |SafeBelow(w0, job)|
  {
    ExtendsReflexive(w0);
    if Durable(w0, job.plan.inputSequence) {
      FewerBoundaries(w0, w0, job, end);
      if result.Completed? {
        JustifiedBeforeShrink(w0, w0, before, job, end, result.checkpoint);
      }
    }
  }

  /** `last` is the smallest source a run over the job could have tried. */
  ghost predicate Smallest(w: World, job: Job, last: int) {
    (last == job.plan.end || last in SafeBelow(w, job)) && forall s :: s in SafeBelow(w, job) ==> last <= s
  }

  /** A run that ends saying that no smaller source was left has tried the smallest one. */
  ghost predicate NamesSmallest(w: World, job: Job, result: RunResult) {
    result.TerminalFailure? && ClaimsSmallest(result.cause) && Durable(w, job.plan.inputSequence) ==>
      Smallest(w, job, result.end)
  }

  lemma NamesSmallestEarlier(w: World, w0: World, job: Job, result: RunResult)
    requires Extends(w, w0) && NamesSmallest(w0, job, result) && job.plan.end <= job.plan.inputSequence
    ensures NamesSmallest(w, job, result)
  {
    PrefixOrdered(w.log, w0.log);
    if Durable(w, job.plan.inputSequence) {
      SafeBelowStable(w, w0, job);
    }
  }

  lemma SafeBelowShrunk(w: World, job: Job, end: int, s: int)
    requires job.plan.start <= end < job.plan.end && SafeWithin(w, job.plan.inputSequence, job.plan.end, end)
    ensures s in SafeBelow(w, Shrunk(job, end)) <==> s in SafeBelow(w, job) && s < end
  {
    if s <= end { SafeAfterShrink(w, job.plan.inputSequence, job.plan.end, end, s); }
  }

  lemma NamesSmallestBeforeShrink(w: World, job: Job, end: int, result: RunResult)
    requires job.plan.start <= end < job.plan.end && SafeWithin(w, job.plan.inputSequence, job.plan.end, end)
    requires NamesSmallest(w, Shrunk(job, end), result)
    ensures NamesSmallest(w, job, result)
  {
    if result.TerminalFailure? && ClaimsSmallest(result.cause) && Durable(w, job.plan.inputSequence) {
      assert end in SafeBelow(w, job);
      SafeBelowShrunk(w, job, end, result.end);
      forall s | s in SafeBelow(w, job) ensures result.end <= s {
        SafeBelowShrunk(w, job, end, s);
      }
    }
  }

  lemma NoneBelowIsSmallest(w: World, job: Job)
    requires NoneBelow(w, job.plan)
    ensures Smallest(w, job, job.plan.end)
  {
  }

  /** A checkpoint at the planned end with this summary would be justified. */
  ghost predicate Publishable(w: World, checkpoints: seq<Checkpoint>, job: Job, summary: string) {
    Durable(w, job.plan.inputSequence) ==>
      forall event :: Last(w.log) < event ==>
        Justified(w, checkpoints, job, Checkpoint(job.plan.start, job.plan.end, job.plan.inputSequence, event, summary))
  }

  lemma ReadyIsPublishable(w0: World, w: World, checkpoints: seq<Checkpoint>, job: Job, protectOpening: bool, text: string, summary: string)
    requires Extends(w0, w) && ValidJob(job) && job.plan.start == NextStart(checkpoints, job.plan.inputSequence)
    requires protectOpening ==> job.plan.end < job.opening
    requires Durable(w0, job.plan.inputSequence) ==>
      protectOpening == Unanswered(w0.log, job.opening, job.plan.inputSequence)
    requires SafeWithin(w, job.plan.inputSequence, job.plan.end, job.plan.end)
    requires Render(Range(w.log, job.plan.start, job.plan.end)) == Some(text)
    requires Saves(PriorSummary(checkpoints, job.plan.inputSequence), text, summary)
    ensures Publishable(w0, checkpoints, job, summary)
  {
    ReducesMeans(PriorSummary(checkpoints, job.plan.inputSequence), text, summary);
    if Durable(w0, job.plan.inputSequence) {
      PrefixOrdered(w0.log, w.log);
      SafeStable(w0, w, job.plan.inputSequence, job.plan.end, job.plan.end, job.plan.end);
      RangeStable(w0.log, w.log, job.plan.start, job.plan.end);
    }
  }

  /** The causes that call for a smaller source are never what a run ends with. */
  ghost predicate NotShrinkable(result: RunResult) {
    result.TerminalFailure? ==>
      result.cause != SummaryNotReduced && result.cause != Provider(ContextWindow) && result.cause != Provider(PayloadTooLarge)
  }

  ghost function SceneOf(store: ExecutionStore): Scene
    reads store
  {
    Scene(store.State(), store.checkpoints, store.produced)
  }

  /** Run and RunClaimed, with the conditions env(n), env(n + 1) and so on.  Every run ends, whatever the
      provider and the store answer; it publishes at most one checkpoint, and what it publishes is
      justified.  `ends` are the source ends it tried: at most one more than the safe boundaries below
      the planned end.  When it reports that no smaller source was left, it has tried the smallest one.
      With a durable watermark it does, round by round, what it would have done had nothing else
      happened in the world since its start. */
  method Run(store: ExecutionStore, job: Job, initial: Option<Claim>, env: nat -> Conditions, n: nat)
    returns (result: RunResult, ghost ends: seq<int>)
    requires Ordered(store.log)
    modifies store
    ensures Outcome(old(store.State()), old(store.checkpoints), job, result, store.State(), store.checkpoints)
    ensures |ends| <= Max(1, job.plan.end - job.plan.start + 1)
    ensures Durable(old(store.State()), job.plan.inputSequence) ==> |ends| <= 1 + |SafeBelow(old(store.State()), job)|
    ensures NamesSmallest(old(store.State()), job, result) && NotShrinkable(result)
    ensures |ends| > 0 && ends[0] == job.plan.end && old(store.failures) <= store.failures
    ensures Durable(old(store.State()), job.plan.inputSequence) ==>
      Runs(old(SceneOf(store)), job, initial, env, n, ends, store.failures != old(store.failures), result)
    decreases job.plan.end - job.plan.start, 3
  {
    ghost var s0 := SceneOf(store);
    var admission := Enter(store, job, initial, env, n, s0);
    ghost var failures1 := store.failures;
    if admission.Refused? {
      ends := [job.plan.end];
      return admission.result, ends;
    }
    ghost var more;
    result, more := Work(store, job, admission.protectOpening, admission.contextId, env, n, s0);
    ends := [job.plan.end] + more;
    if Durable(s0.world, job.plan.inputSequence) {
      WorkedRuns(s0, job, initial, env, n, more, store.failures != failures1, store.failures != old(store.failures), result);
    }
  }

  /** Admission, seen from the start of the run: a refused run ends there. */
  method Enter(store: ExecutionStore, job: Job, initial: Option<Claim>, env: nat -> Conditions, n: nat, ghost s0: Scene)
    returns (r: Admission)
    requires Ordered(store.log) && s0 == SceneOf(store)
    modifies store`log, store`tools, store`failures
    ensures Extends(s0.world, store.State()) && old(store.failures) <= store.failures
    ensures r.Refused? ==> !r.result.Completed? && !r.result.TerminalFailure?
    ensures r.Refused? && Durable(s0.world, job.plan.inputSequence) ==>
      Runs(s0, job, initial, env, n, [job.plan.end], store.failures != old(store.failures), r.result)
    ensures r.Admitted? ==> ValidJob(job) && job.plan.start == NextStart(store.checkpoints, job.plan.inputSequence)
    ensures r.Admitted? ==> (r.protectOpening ==> job.plan.end < job.opening)
    ensures r.Admitted? && Durable(s0.world, job.plan.inputSequence) ==>
      && r.protectOpening == Unanswered(s0.world.log, job.opening, job.plan.inputSequence)
      && Admissible(Seen(s0.world, job).unanswered, s0.checkpoints, job, initial, env(n))
  {
    r := Admit(store, job, initial, env(n));
    if Durable(s0.world, job.plan.inputSequence) {
      UnansweredStable(s0.world.log, store.log, job.opening, job.plan.inputSequence);
      if r.Refused? {
        RefusedRuns(s0, job, initial, env, n, store.failures != old(store.failures), r.result);
      }
    }
  }

  /** The run went to work: an attempt, the decision after it, and what was left of the run then. */
  ghost predicate Worked(s: Scene, job: Job, env: nat -> Conditions, n: nat, more: seq<int>, failed: bool, result: RunResult) {
    && (exists attempt, d :: Works(Seen(s.world, job), s.checkpoints, job, env(n), failed, attempt, d) &&
                             NextOf(more, result) == NextFrom(env(n), d))
    && GoesOn(s, job, env, n, more, failed, result)
  }

  /** The work of an admitted run. */
  method Work(store: ExecutionStore, job: Job, protectOpening: bool, contextId: nat, env: nat -> Conditions, n: nat, ghost s0: Scene)
    returns (result: RunResult, ghost ends: seq<int>)
    requires Ordered(store.log) && Extends(s0.world, store.State()) && ValidJob(job)
    requires s0.checkpoints == store.checkpoints && s0.produced == store.produced
    requires job.plan.start == NextStart(store.checkpoints, job.plan.inputSequence)
    requires protectOpening ==> job.plan.end < job.opening
    requires Durable(s0.world, job.plan.inputSequence) ==>
      protectOpening == Unanswered(s0.world.log, job.opening, job.plan.inputSequence)
    modifies store
    ensures Outcome(s0.world, s0.checkpoints, job, result, store.State(), store.checkpoints)
    ensures |ends| <= job.plan.end - job.plan.start && old(store.failures) <= store.failures
    ensures Durable(s0.world, job.plan.inputSequence) ==> |ends| <= |SafeBelow(s0.world, job)|
    ensures NamesSmallest(s0.world, job, result) && NotShrinkable(result)
    ensures Durable(s0.world, job.plan.inputSequence) ==>
      Worked(s0, job, env, n, ends, store.failures != old(store.failures), result)
    decreases job.plan.end - job.plan.start, 2
  {
    ghost var v, failures1 := Seen(s0.world, job), store.failures;
    var attempt := Attempting(store, job, protectOpening, env(n), s0.world, v);
    ghost var failures2 := store.failures;
    var d := Decide(store, job, contextId, attempt, env(n), s0, v);
    ghost var failures3 := store.failures;
    result, ends := Proceed(store, job, d, env, n, s0);
    if Durable(s0.world, job.plan.inputSequence) {
      WorkIsDone(s0, v, job, env, n, attempt, d, ends, failures2 != failures1, failures3 != failures2,
                 store.failures != failures3, store.failures != failures1, result);
    }
  }

  lemma RefusedRuns(s: Scene, job: Job, initial: Option<Claim>, env: nat -> Conditions, n: nat, failed: bool, result: RunResult)
    requires TurnedAway(Seen(s.world, job).unanswered, s.checkpoints, s.produced, job, initial, env(n), failed, result)
    ensures Runs(s, job, initial, env, n, [job.plan.end], failed, result)
  {
    StepsFrom(RoundIn(s, failed), job, initial, env, n, [], result);
    assert [job.plan.end] + [] == [job.plan.end];
  }

  lemma WorkIsDone(s: Scene, v: View, job: Job, env: nat -> Conditions, n: nat, attempt: Attempt, d: Decision,
                   more: seq<int>, failed1: bool, failed2: bool, failed3: bool, failed: bool, result: RunResult)
    requires v == Seen(s.world, job) && (failed1 || failed2 || failed3 ==> failed)
    requires Attempted(v, s.checkpoints, job, env(n), failed1, attempt)
    requires AfterAttempt(v, s.checkpoints, job, env(n), failed2, attempt, d) && NextOf(more, result) == NextFrom(env(n), d)
    requires GoesOn(s, job, env, n, more, failed3, result)
    ensures Worked(s, job, env, n, more, failed, result)
  {
    WorksMonotone(v, s.checkpoints, job, env(n), failed1, failed2, failed, attempt, d);
    GoesOnMonotone(s, job, env, n, more, failed3, failed, result);
  }

  lemma WorkedRuns(s: Scene, job: Job, initial: Option<Claim>, env: nat -> Conditions, n: nat, more: seq<int>,
                   failed: bool, failed': bool, result: RunResult)
    requires (failed ==> failed') && Worked(s, job, env, n, more, failed, result)
    requires Admissible(Seen(s.world, job).unanswered, s.checkpoints, job, initial, env(n))
    ensures Runs(s, job, initial, env, n, [job.plan.end] + more, failed', result)
  {
    RoundMonotone(Seen(s.world, job), s.checkpoints, s.produced, job, initial, env(n), failed, failed', NextOf(more, result));
    GoesOnMonotone(s, job, env, n, more, failed, failed', result);
    StepsFrom(RoundIn(s, failed'), job, initial, env, n, more, result);
  }

  lemma GoesOnMonotone(s: Scene, job: Job, env: nat -> Conditions, n: nat, more: seq<int>, failed: bool, failed': bool, result: RunResult)
    requires (failed ==> failed') && GoesOn(s, job, env, n, more, failed, result)
    ensures GoesOn(s, job, env, n, more, failed', result)
  {
    if more != [] {
      RunsMonotone(s, Shrunk(job, more[0]), ClaimAfter(env(n)), env, n + 1, more, failed, failed', result);
    }
  }

  /** The attempt at the planned source: prepare, send, judge. */
  method Attempting(store: ExecutionStore, job: Job, protectOpening: bool, c: Conditions, ghost w0: World, ghost v: View)
    returns (r: Attempt)
    requires Ordered(store.log) && Extends(w0, store.State())
    requires ValidJob(job) && job.plan.start == NextStart(store.checkpoints, job.plan.inputSequence)
    requires protectOpening ==> job.plan.end < job.opening
    requires Durable(w0, job.plan.inputSequence) ==>
      protectOpening == Unanswered(w0.log, job.opening, job.plan.inputSequence)
    requires Durable(w0, job.plan.inputSequence) ==> v == Seen(w0, job)
    modifies store`log, store`tools, store`failures
    ensures Extends(w0, store.State()) && !r.Ready? && old(store.failures) <= store.failures
    ensures r.Shrinks? ==> SafeReplacement(store.State(), job, Replace(r.end))
    ensures r.Summarized? ==> Publishable(w0, store.checkpoints, job, r.summary)
    ensures r.Fails? ==> !ClaimsSmallest(r.cause)
    ensures Durable(w0, job.plan.inputSequence) ==>
      Attempted(v, store.checkpoints, job, c, store.failures != old(store.failures), r)
  {
    ghost var failures0 := store.failures;
    r := PrepareFor(store, job, c, w0, v);
    ghost var ready, failures1 := r, store.failures;
    if r.Ready? {
      r := Send(store, job, protectOpening, r.text, c, w0, v);
    }
    if Durable(w0, job.plan.inputSequence) {
      AttemptedFrom(v, store.checkpoints, job, c, failures1 != failures0, store.failures != failures0, ready, r);
    }
  }

  /** The request, seen from the start of the run. */
  method PrepareFor(store: ExecutionStore, job: Job, c: Conditions, ghost w0: World, ghost v: View) returns (r: Attempt)
    requires Ordered(store.log) && Extends(w0, store.State()) && ValidJob(job)
    requires Durable(w0, job.plan.inputSequence) ==> v == Seen(w0, job)
    modifies store`log, store`tools, store`failures
    ensures Extends(w0, store.State()) && old(store.failures) <= store.failures && !r.Summarized?
    ensures r.Shrinks? ==> SafeReplacement(store.State(), job, Replace(r.end))
    ensures r.Ready? ==> SafeWithin(store.State(), job.plan.inputSequence, job.plan.end, job.plan.end)
    ensures r.Ready? ==> Render(Range(store.log, job.plan.start, job.plan.end)) == Some(r.text)
    ensures r.Fails? ==> !ClaimsSmallest(r.cause)
    ensures Durable(w0, job.plan.inputSequence) ==>
      Prepared(v.prefixes, job.plan, c.setup, store.failures != old(store.failures) || !v.complete, r)
  {
    ghost var w1 := store.State();
    r := PrepareRequest(store, job, c.setup);
    ExtendsTransitive(w0, w1, store.State());
    if Durable(w0, job.plan.inputSequence) { StillSeen(w0, store.State(), job, v); }
  }

  /** Sending the request over a safe, rendered source and judging the reply. */
  method Send(store: ExecutionStore, job: Job, protectOpening: bool, text: string, c: Conditions, ghost w0: World, ghost v: View)
    returns (r: Attempt)
    requires Ordered(store.log) && Extends(w0, store.State())
    requires ValidJob(job) && job.plan.start == NextStart(store.checkpoints, job.plan.inputSequence)
    requires protectOpening ==> job.plan.end < job.opening
    requires Durable(w0, job.plan.inputSequence) ==>
      protectOpening == Unanswered(w0.log, job.opening, job.plan.inputSequence)
    requires Durable(w0, job.plan.inputSequence) ==> v == Seen(w0, job)
    requires SafeWithin(store.State(), job.plan.inputSequence, job.plan.end, job.plan.end)
    requires Render(Range(store.log, job.plan.start, job.plan.end)) == Some(text)
    modifies store`log, store`tools, store`failures
    ensures Extends(w0, store.State()) && !r.Ready? && old(store.failures) <= store.failures
    ensures r.Shrinks? ==> SafeReplacement(store.State(), job, Replace(r.end))
    ensures r.Summarized? ==> Publishable(w0, store.checkpoints, job, r.summary)
    ensures r.Fails? ==> !ClaimsSmallest(r.cause)
    ensures Durable(w0, job.plan.inputSequence) ==>
      (Disturbed(v, store.failures != old(store.failures)) && r == Abort(StoreRefused)) ||
      Judged(v, store.checkpoints, job, protectOpening, text, c.reply, c.projection, r)
  {
    ghost var w1 := store.State();
    r := Summarize(store, job, protectOpening, text, c, w0, v);
    if r.Summarized? {
      ReadyIsPublishable(w0, w1, store.checkpoints, job, protectOpening, text, r.summary);
    }
  }

  lemma AttemptedFrom(v: View, checkpoints: seq<Checkpoint>, job: Job, c: Conditions, failed': bool, failed: bool, ready: Attempt, r: Attempt)
    requires failed' ==> failed
    requires Prepared(v.prefixes, job.plan, c.setup, failed' || !v.complete, ready)
    requires if ready.Ready? then
        (Disturbed(v, failed) && r == Abort(StoreRefused)) ||
        Judged(v, checkpoints, job, v.unanswered, ready.text, c.reply, c.projection, r)
      else r == ready
    ensures Attempted(v, checkpoints, job, c, failed, r)
  {
    assert Prepared(v.prefixes, job.plan, c.setup, Disturbed(v, failed), ready);
  }

  /** The decision says that no smaller source was left only if none is. */
  ghost predicate Sincere(w: World, job: Job, d: Decision) {
    d.Conclude? && d.result.TerminalFailure? ==>
      d.result.end == job.plan.end && (ClaimsSmallest(d.result.cause) ==> NoneBelow(w, job.plan))
  }

  /** A replacement is a safe boundary below the planned end. */
  ghost predicate SafeReplacement(w: World, job: Job, d: Decision) {
    d.Replace? ==> job.plan.start <= d.end < job.plan.end && SafeWithin(w, job.plan.inputSequence, job.plan.end, d.end)
  }

  /** What follows an attempt: publish, fail, or move to a smaller source. */
  method Decide(store: ExecutionStore, job: Job, contextId: nat, attempt: Attempt, c: Conditions, ghost s0: Scene, ghost v: View)
    returns (d: Decision)
    requires Ordered(store.log) && Extends(s0.world, store.State()) && ValidJob(job) && !attempt.Ready?
    requires s0.checkpoints == store.checkpoints && s0.produced == store.produced
    requires Durable(s0.world, job.plan.inputSequence) ==> v == Seen(s0.world, job)
    requires attempt.Shrinks? ==> SafeReplacement(store.State(), job, Replace(attempt.end))
    requires attempt.Summarized? ==> Publishable(s0.world, store.checkpoints, job, attempt.summary)
    requires attempt.Fails? ==> !ClaimsSmallest(attempt.cause)
    modifies store
    ensures Extends(s0.world, store.State()) && old(store.failures) <= store.failures
    ensures d.Conclude? ==> Outcome(s0.world, s0.checkpoints, job, d.result, store.State(), store.checkpoints) && NotShrinkable(d.result)
    ensures d.Replace? ==> store.checkpoints == s0.checkpoints && store.produced == s0.produced
    ensures SafeReplacement(store.State(), job, d) && Sincere(store.State(), job, d)
    ensures Durable(s0.world, job.plan.inputSequence) ==>
      AfterAttempt(v, s0.checkpoints, job, c, store.failures != old(store.failures), attempt, d)
  {
    match attempt {
      case Abort(error) =>
        d := Conclude(RunFailed(error));
      case Fails(cause) =>
        d := AfterFailed(store, job, cause, c, s0, v);
      case Shrinks(end) =>
        d := Replace(end);
      case Summarized(summary) =>
        d := PublishSummary(store, job, contextId, summary, c, s0, v);
    }
  }

  /** A failure of the attempt, seen from the start of the run. */
  method AfterFailed(store: ExecutionStore, job: Job, cause: Cause, c: Conditions, ghost s0: Scene, ghost v: View) returns (d: Decision)
    requires Ordered(store.log) && Extends(s0.world, store.State()) && ValidJob(job) && !ClaimsSmallest(cause)
    requires Durable(s0.world, job.plan.inputSequence) ==> v == Seen(s0.world, job)
    modifies store`log, store`tools, store`failures
    ensures Extends(s0.world, store.State()) && old(store.failures) <= store.failures
    ensures d.Conclude? ==> !d.result.Completed? && NotShrinkable(d.result)
    ensures SafeReplacement(store.State(), job, d) && Sincere(store.State(), job, d)
    ensures Durable(s0.world, job.plan.inputSequence) ==>
      AfterFailure(v, job, c, store.failures != old(store.failures), cause, d)
  {
    ghost var w1 := store.State();
    d := RecordFailure(store, job, cause, c);
    ExtendsTransitive(s0.world, w1, store.State());
    if Durable(s0.world, job.plan.inputSequence) { SeenStable(s0.world, store.State(), job); }
  }

  /** Publishing, and the fallback when the store finds the boundary unsafe. */
  method PublishSummary(store: ExecutionStore, job: Job, contextId: nat, summary: string, c: Conditions, ghost s0: Scene, ghost v: View)
    returns (d: Decision)
    requires Ordered(store.log) && Extends(s0.world, store.State()) && ValidJob(job)
    requires s0.checkpoints == store.checkpoints && s0.produced == store.produced
    requires Durable(s0.world, job.plan.inputSequence) ==> v == Seen(s0.world, job)
    requires Publishable(s0.world, store.checkpoints, job, summary)
    modifies store
    ensures Extends(s0.world, store.State()) && old(store.failures) <= store.failures
    ensures d.Conclude? ==> Outcome(s0.world, s0.checkpoints, job, d.result, store.State(), store.checkpoints) && NotShrinkable(d.result)
    ensures d.Replace? ==> store.checkpoints == s0.checkpoints && store.produced == s0.produced
    ensures SafeReplacement(store.State(), job, d) && Sincere(store.State(), job, d)
    ensures Durable(s0.world, job.plan.inputSequence) ==>
      AfterAttempt(v, s0.checkpoints, job, c, store.failures != old(store.failures), Summarized(summary), d)
  {
    ghost var w1 := store.State();
    var published := store.Publish(c.publication, contextId, job.plan.start, job.plan.end, job.plan.inputSequence, summary, job.turnId);
    ghost var w2 := store.State();
    ExtendsTransitive(s0.world, w1, w2);
    PrefixOrdered(s0.world.log, w1.log);
    match published {
      case Published(checkpoint) =>
        d := Conclude(Completed(checkpoint));
      case PublishRefused =>
        d := Conclude(RunFailed(StoreRefused));
      case BoundaryUnsafe =>
        d := AfterUnsafe(store, job, c, s0, v);
    }
  }

  /** The store found the boundary unsafe: the next smaller source, or the end of the run. */
  method AfterUnsafe(store: ExecutionStore, job: Job, c: Conditions, ghost s0: Scene, ghost v: View) returns (d: Decision)
    requires Ordered(store.log) && Extends(s0.world, store.State()) && ValidJob(job)
    requires s0.checkpoints == store.checkpoints && s0.produced == store.produced
    requires Durable(s0.world, job.plan.inputSequence) ==> v == Seen(s0.world, job)
    modifies store`log, store`tools, store`failures
    ensures Extends(s0.world, store.State()) && old(store.failures) <= store.failures
    ensures d.Conclude? ==> !d.result.Completed? && NotShrinkable(d.result)
    ensures SafeReplacement(store.State(), job, d) && Sincere(store.State(), job, d)
    ensures Durable(s0.world, job.plan.inputSequence) ==>
      FallsBack(v, job, c, store.failures != old(store.failures), SourceIrreducible(NothingRemains), d)
  {
    ghost var w1 := store.State();
    d := FallBack(store, job, SourceIrreducible(NothingRemains), c);
    ExtendsTransitive(s0.world, w1, store.State());
    if Durable(s0.world, job.plan.inputSequence) { SeenStable(s0.world, store.State(), job); }
  }

  /** The next smaller source, or the given cause when none is left. */
  method FallBack(store: ExecutionStore, job: Job, otherwise: Cause, c: Conditions) returns (d: Decision)
    requires Ordered(store.log) && ValidJob(job) && ClaimsSmallest(otherwise)
    modifies store`log, store`tools, store`failures
    ensures Extends(old(store.State()), store.State()) && old(store.failures) <= store.failures
    ensures SafeReplacement(store.State(), job, d) && Sincere(store.State(), job, d)
    ensures d.Conclude? ==> d.result == RunFailed(StoreRefused) || d.result == TerminalFailure(otherwise, job.plan.end)
    ensures Disturbed(Seen(store.State(), job), store.failures != old(store.failures)) || NoneBelow(store.State(), job.plan) ||
      (d.Replace? && PicksBelow(PrefixesOf(store.State(), job.plan), job.plan, d.end))
    ensures FallsBack(Seen(store.State(), job), job, c, store.failures != old(store.failures), otherwise, d)
  {
    var next := NextSmallerSourceEnd(store, job.plan);
    match next {
      case RenderFailed =>
        d := Conclude(RunFailed(StoreRefused));
      case Smaller(end) =>
        d := Replace(end);
      case NothingSmaller =>
        var result := RecordedResult(job, c, otherwise);
        d := Conclude(result);
    }
  }

  /** The end of a run whose failure is recorded: a retry, unless the source is irreducible, or the end. */
  method RecordedResult(job: Job, c: Conditions, cause: Cause) returns (result: RunResult)
    ensures result == RecordedAs(job, c, cause)
  {
    var retry := c.retry;
    if cause.SourceIrreducible? {
      retry := false;
    }
    if !c.recorded {
      return RunFailed(StoreRefused);
    }
    return if retry then RetryScheduled else TerminalFailure(cause, job.plan.end);
  }

  /** irreducibleCompactionFailureDetail */
  function SmallestDetail(cause: Cause): Detail {
    if cause == SummaryNotReduced then SmallestNotReduced else SmallestTooLarge
  }

  /** recordFailure: a summary that saves nothing and a request too large for the model lead to a
      smaller source, or to the verdict that none is left; never to a retry of the same source. */
  method RecordFailure(store: ExecutionStore, job: Job, cause: Cause, c: Conditions) returns (d: Decision)
    requires Ordered(store.log) && ValidJob(job) && !ClaimsSmallest(cause)
    modifies store`log, store`tools, store`failures
    ensures Extends(old(store.State()), store.State()) && old(store.failures) <= store.failures
    ensures SafeReplacement(store.State(), job, d) && Sincere(store.State(), job, d)
    ensures d.Conclude? ==> !d.result.Completed? && NotShrinkable(d.result)
    ensures cause in {SummaryNotReduced, Provider(ContextWindow), Provider(PayloadTooLarge)} && d.Conclude? ==>
      || d.result == RunFailed(StoreRefused)
      || (NoneBelow(store.State(), job.plan) &&
          d.result == TerminalFailure(SourceIrreducible(if cause == SummaryNotReduced then SmallestNotReduced else SmallestTooLarge),
                                      job.plan.end))
    ensures cause in {SummaryNotReduced, Provider(ContextWindow), Provider(PayloadTooLarge)} ==>
      || Disturbed(Seen(store.State(), job), store.failures != old(store.failures)) || NoneBelow(store.State(), job.plan)
      || (d.Replace? && PicksBelow(PrefixesOf(store.State(), job.plan), job.plan, d.end))
    ensures cause !in {SummaryNotReduced, Provider(ContextWindow), Provider(PayloadTooLarge)} ==>
      d == Conclude(
        if !c.recorded then RunFailed(StoreRefused)
        else if c.retry && !cause.SourceIrreducible? then RetryScheduled
        else TerminalFailure(cause, job.plan.end))
    ensures AfterFailure(Seen(store.State(), job), job, c, store.failures != old(store.failures), cause, d)
  {
    ExtendsReflexive(store.State());
    if Shrinkable(cause) {
      d := FallBack(store, job, SourceIrreducible(SmallestDetail(cause)), c);
    } else {
      var result := RecordedResult(job, c, cause);
      d := Conclude(result);
    }
  }

  lemma SmallestEarlier(w: World, w0: World, job: Job)
    requires Extends(w, w0) && NoneBelow(w0, job.plan) && job.plan.end <= job.plan.inputSequence
    ensures Durable(w, job.plan.inputSequence) ==> Smallest(w, job, job.plan.end)
  {
    NoneBelowIsSmallest(w0, job);
    if Durable(w, job.plan.inputSequence) {
      SafeBelowStable(w, w0, job);
    }
  }

  lemma SincereNames(w: World, w0: World, job: Job, d: Decision)
    requires Extends(w, w0) && job.plan.end <= job.plan.inputSequence && d.Conclude? && Sincere(w0, job, d)
    ensures NamesSmallest(w, job, d.result)
  {
    if d.result.TerminalFailure? && ClaimsSmallest(d.result.cause) {
      SmallestEarlier(w, w0, job);
    }
  }

  /** The end of the run, or replaceCompactionSource: the run goes on with the smaller source under a
      new claim. */
  method Proceed(store: ExecutionStore, job: Job, d: Decision, env: nat -> Conditions, n: nat, ghost s0: Scene)
    returns (result: RunResult, ghost ends: seq<int>)
    requires Ordered(store.log) && Extends(s0.world, store.State()) && ValidJob(job)
    requires d.Conclude? ==> Outcome(s0.world, s0.checkpoints, job, d.result, store.State(), store.checkpoints) && NotShrinkable(d.result)
    requires d.Replace? ==> store.checkpoints == s0.checkpoints && store.produced == s0.produced
    requires SafeReplacement(store.State(), job, d) && Sincere(store.State(), job, d)
    modifies store
    ensures Outcome(s0.world, s0.checkpoints, job, result, store.State(), store.checkpoints)
    ensures |ends| <= job.plan.end - job.plan.start && old(store.failures) <= store.failures
    ensures Durable(s0.world, job.plan.inputSequence) ==> |ends| <= |SafeBelow(s0.world, job)|
    ensures NamesSmallest(s0.world, job, result) && NotShrinkable(result)
    ensures NextOf(ends, result) == NextFrom(env(n), d)
    ensures Durable(s0.world, job.plan.inputSequence) ==>
      GoesOn(s0, job, env, n, ends, store.failures != old(store.failures), result)
    decreases job.plan.end - job.plan.start, 1
  {
    ends := [];
    match d {
      case Conclude(r) =>
        result := r;
        SincereNames(s0.world, store.State(), job, d);
      case Replace(end) =>
        result, ends := ReplaceSource(store, job, end, env, n, s0);
    }
  }

  /** replaceCompactionSource */
  method ReplaceSource(store: ExecutionStore, job: Job, end: int, env: nat -> Conditions, n: nat, ghost s0: Scene)
    returns (result: RunResult, ghost ends: seq<int>)
    requires Ordered(store.log) && Extends(s0.world, store.State()) && ValidJob(job)
    requires s0.checkpoints == store.checkpoints && s0.produced == store.produced
    requires SafeReplacement(store.State(), job, Replace(end))
    modifies store
    ensures Outcome(s0.world, s0.checkpoints, job, result, store.State(), store.checkpoints)
    ensures |ends| <= job.plan.end - job.plan.start && old(store.failures) <= store.failures
    ensures Durable(s0.world, job.plan.inputSequence) ==> |ends| <= |SafeBelow(s0.world, job)|
    ensures NamesSmallest(s0.world, job, result) && NotShrinkable(result)
    ensures NextOf(ends, result) == NextFrom(env(n), Replace(end))
    ensures env(n).replacement.ReplaceRefused? ==> result == RunFailed(StoreRefused) && ends == []
    ensures env(n).replacement.Preempted? ==> result == Terminal && ends == []
    ensures env(n).replacement.Replaced? ==> |ends| > 0 && ends[0] == end
    ensures Durable(s0.world, job.plan.inputSequence) ==>
      GoesOn(s0, job, env, n, ends, store.failures != old(store.failures), result)
    decreases job.plan.end - job.plan.start, 0
  {
    ghost var w1 := store.State();
    ends := [];
    match env(n).replacement {
      case ReplaceRefused =>
        result := RunFailed(StoreRefused);
      case Preempted =>
        result := Terminal;
      case Replaced(claim) =>
        result, ends := Run(store, Shrunk(job, end), Some(claim), env, n + 1);
        ReplacedIsSettled(s0, w1, job, end, env, n, ends, store.failures != old(store.failures), result, store.State(), store.checkpoints);
    }
  }

  /** What a run over the smaller source gives, seen from the larger source and the earlier world. */
  lemma ReplacedIsSettled(s0: Scene, w1: World, job: Job, end: int, env: nat -> Conditions, n: nat, ends: seq<int>,
                          failed: bool, result: RunResult, w2: World, after: seq<Checkpoint>)
    requires Ordered(w1.log) && Extends(s0.world, w1) && ValidJob(job) && env(n).replacement.Replaced?
    requires job.plan.start <= end < job.plan.end && SafeWithin(w1, job.plan.inputSequence, job.plan.end, end)
    requires Outcome(w1, s0.checkpoints, Shrunk(job, end), result, w2, after) && NamesSmallest(w1, Shrunk(job, end), result)
    requires |ends| > 0 && ends[0] == end
    requires Durable(w1, job.plan.inputSequence) ==>
      && |ends| <= 1 + |SafeBelow(w1, Shrunk(job, end))|
      && Runs(s0.(world := w1), Shrunk(job, end), ClaimAfter(env(n)), env, n + 1, ends, failed, result)
    ensures Outcome(s0.world, s0.checkpoints, job, result, w2, after) && NamesSmallest(s0.world, job, result)
    ensures Durable(s0.world, job.plan.inputSequence) ==>
      |ends| <= |SafeBelow(s0.world, job)| && GoesOn(s0, job, env, n, ends, failed, result)
  {
    OutcomeBeforeShrink(w1, s0.checkpoints, job, end, result, w2, after);
    NamesSmallestBeforeShrink(w1, job, end, result);
    OutcomeEarlier(s0.world, w1, s0.checkpoints, job, result, w2, after);
    NamesSmallestEarlier(s0.world, w1, job, result);
    if Durable(s0.world, job.plan.inputSequence) {
      PrefixOrdered(s0.world.log, w1.log);
      RunsEarlier(s0, w1, Shrunk(job, end), ClaimAfter(env(n)), env, n + 1, ends, failed, result);
    }
  }

  // ----- what the answers lead to -----

  /** Every way the search can end takes the whole source. */
  ghost predicate WholeSourceFits(p: Prefixes, plan: Selector.Plan, setup: Setup)
    requires setup.SetupDone?
  {
    forall fit :: Searched(p, plan, setup, fit) ==> fit.Chosen? && fit.request.end == plan.end
  }

  /** A quiet round: no store call fails, the log has no gap, every event renders, the run is admitted
      and its whole source fits the model. */
  ghost predicate Quiet(v: View, checkpoints: seq<Checkpoint>, job: Job, initial: Option<Claim>, c: Conditions) {
    && !Disturbed(v, false) && Admissible(v.unanswered, checkpoints, job, initial, c)
    && c.setup.SetupDone? && WholeSourceFits(v.prefixes, job.plan, c.setup)
  }

  /** In a quiet round the reply to the request over the whole source decides. */
  lemma QuietRound(v: View, checkpoints: seq<Checkpoint>, produced: map<nat, Checkpoint>, job: Job, initial: Option<Claim>,
                   c: Conditions, next: Next) returns (attempt: Attempt, d: Decision)
    requires Quiet(v, checkpoints, job, initial, c) && Round(v, checkpoints, produced, job, initial, c, false, next)
    ensures Render(v.prefixes.source).Some? && next == NextFrom(c, d)
    ensures Judged(v, checkpoints, job, v.unanswered, Render(v.prefixes.source).value, c.reply, c.projection, attempt)
    ensures AfterAttempt(v, checkpoints, job, c, false, attempt, d)
  {
    attempt, d :| Works(v, checkpoints, job, c, false, attempt, d) && next == NextFrom(c, d);
    QuietAttempt(v, checkpoints, job, c, attempt, d);
  }

  lemma QuietAttempt(v: View, checkpoints: seq<Checkpoint>, job: Job, c: Conditions, attempt: Attempt, d: Decision)
    requires !Disturbed(v, false) && c.setup.SetupDone? && WholeSourceFits(v.prefixes, job.plan, c.setup)
    requires Works(v, checkpoints, job, c, false, attempt, d)
    ensures Render(v.prefixes.source).Some?
    ensures Judged(v, checkpoints, job, v.unanswered, Render(v.prefixes.source).value, c.reply, c.projection, attempt)
  {
    var ready :| Prepared(v.prefixes, job.plan, c.setup, false, ready) &&
      if ready.Ready? then Judged(v, checkpoints, job, v.unanswered, ready.text, c.reply, c.projection, attempt)
      else attempt == ready;
    var fit :| Searched(v.prefixes, job.plan, c.setup, fit) && Follow(v.prefixes, job.plan, fit, ready);
    assert fit.Chosen? && fit.request.end == job.plan.end;
  }

  /** The model found the request too large. */
  predicate TooLarge(reply: Reply) {
    || reply == ReplyError(Some(ContextWindow)) || reply == ReplyError(Some(PayloadTooLarge))
    || (reply.Response? && reply.stop == WindowExceeded)
  }

  /** The model gave a whole summary that does not save the required tokens. */
  predicate SavesNothing(checkpoints: seq<Checkpoint>, job: Job, text: string, reply: Reply) {
    && reply.Response? && reply.stop == EndTurn && HoldsSummary(reply)
    && !Saves(PriorSummary(checkpoints, job.plan.inputSequence), text, reply.summary)
  }

  /** When the model finds the request too large, or its summary saves nothing, the run goes on with
      the preferred smaller source; only when no boundary below is safe does it end, as irreducible,
      and it is never scheduled again for the same source. */
  lemma SmallerSourceFollows(v: View, checkpoints: seq<Checkpoint>, produced: map<nat, Checkpoint>, job: Job, initial: Option<Claim>,
                             c: Conditions, next: Next)
    requires Quiet(v, checkpoints, job, initial, c) && Round(v, checkpoints, produced, job, initial, c, false, next)
    requires Render(v.prefixes.source).Some? ==>
      TooLarge(c.reply) || SavesNothing(checkpoints, job, Render(v.prefixes.source).value, c.reply)
    requires c.recorded && c.replacement.Replaced?
    ensures if Below(v.prefixes.ends, job.plan.end) != [] then next.GoOn? && PicksBelow(v.prefixes, job.plan, next.end)
      else next == Stop(TerminalFailure(SourceIrreducible(if TooLarge(c.reply) then SmallestTooLarge else SmallestNotReduced), job.plan.end))
  {
    var attempt, d := QuietRound(v, checkpoints, produced, job, initial, c, next);
    assert attempt.Fails?;
  }

  /** A truncated reply leads to the preferred smaller source as long as there is one. */
  lemma TruncatedReplyShrinks(v: View, checkpoints: seq<Checkpoint>, produced: map<nat, Checkpoint>, job: Job, initial: Option<Claim>,
                              c: Conditions, next: Next)
    requires Quiet(v, checkpoints, job, initial, c) && Round(v, checkpoints, produced, job, initial, c, false, next)
    requires c.reply.Response? && c.reply.stop == MaxTokens && Below(v.prefixes.ends, job.plan.end) != []
    requires c.replacement.Replaced?
    ensures next.GoOn? && PicksBelow(v.prefixes, job.plan, next.end)
  {
    var attempt, d := QuietRound(v, checkpoints, produced, job, initial, c, next);
  }

  /** A summary that saves tokens, with a next request that fits, is published over the whole source
      once the store accepts it. */
  lemma SummaryIsPublished(v: View, checkpoints: seq<Checkpoint>, produced: map<nat, Checkpoint>, job: Job, initial: Option<Claim>,
                           c: Conditions, next: Next)
    requires Quiet(v, checkpoints, job, initial, c) && Round(v, checkpoints, produced, job, initial, c, false, next)
    requires HoldsSummary(c.reply) && (c.reply.stop == EndTurn || Below(v.prefixes.ends, job.plan.end) == [])
    requires Render(v.prefixes.source).Some? ==>
      Saves(PriorSummary(checkpoints, job.plan.inputSequence), Render(v.prefixes.source).value, c.reply.summary)
    requires c.projection.ProjectionFits? && c.publication.Accepts? && Unpublished(checkpoints, job.plan.inputSequence, job.plan.end)
    ensures next.Stop? && next.result.Completed?
    ensures var cp := next.result.checkpoint;
      cp == Checkpoint(job.plan.start, job.plan.end, job.plan.inputSequence, cp.eventSequence, c.reply.summary)
  {
    var attempt, d := QuietRound(v, checkpoints, produced, job, initial, c, next);
  }

  // ----- the sources of a run -----

  /** Whatever makes a round go on, it goes on with a safe boundary below its source's end. */
  lemma GoesOnBelow(s: Scene, job: Job, initial: Option<Claim>, c: Conditions, failed: bool, end: int)
    requires Ordered(s.world.log)
    requires Round(Seen(s.world, job), s.checkpoints, s.produced, job, initial, c, failed, GoOn(end))
    ensures job.plan.start <= end < job.plan.end && SafeWithin(s.world, job.plan.inputSequence, job.plan.end, end)
  {
    var v := Seen(s.world, job);
    var attempt, d :| Works(v, s.checkpoints, job, c, failed, attempt, d) && GoOn(end) == NextFrom(c, d);
    assert d == Replace(end) && ValidJob(job);
    ReplacesBelow(s, job, c, failed, attempt, end);
  }

  lemma ReplacesBelow(s: Scene, job: Job, c: Conditions, failed: bool, attempt: Attempt, end: int)
    requires Ordered(s.world.log) && ValidJob(job) && Works(Seen(s.world, job), s.checkpoints, job, c, failed, attempt, Replace(end))
    ensures job.plan.start <= end < job.plan.end && SafeWithin(s.world, job.plan.inputSequence, job.plan.end, end)
  {
    if attempt.Shrinks? {
      ShrinksBelow(s, job, c, failed, attempt);
    } else {
      PicksAfterAttempt(Seen(s.world, job), s.checkpoints, job, c, failed, attempt, end);
      PickedIsSafe(s.world, job.plan, end);
    }
  }

  lemma PicksAfterAttempt(v: View, checkpoints: seq<Checkpoint>, job: Job, c: Conditions, failed: bool, attempt: Attempt, end: int)
    requires AfterAttempt(v, checkpoints, job, c, failed, attempt, Replace(end)) && !attempt.Shrinks?
    ensures PicksBelow(v.prefixes, job.plan, end)
  {
  }

  lemma ShrinksBelow(s: Scene, job: Job, c: Conditions, failed: bool, attempt: Attempt)
    requires Ordered(s.world.log) && ValidJob(job) && attempt.Shrinks?
    requires Attempted(Seen(s.world, job), s.checkpoints, job, c, failed, attempt)
    ensures job.plan.start <= attempt.end < job.plan.end
    ensures SafeWithin(s.world, job.plan.inputSequence, job.plan.end, attempt.end)
  {
    var v := Seen(s.world, job);
    var ready :| Prepared(v.prefixes, job.plan, c.setup, Disturbed(v, failed), ready) &&
      if ready.Ready? then
        || (Disturbed(v, failed) && attempt == Abort(StoreRefused))
        || Judged(v, s.checkpoints, job, v.unanswered, ready.text, c.reply, c.projection, attempt)
      else attempt == ready;
    if ready.Ready? {
      JudgedShrinks(v, s.checkpoints, job, v.unanswered, ready.text, c.reply, c.projection, attempt);
      PickedIsSafe(s.world, job.plan, attempt.end);
    } else {
      PreparedShrinks(v.prefixes, job.plan, c.setup, Disturbed(v, failed), attempt);
      RangeEndsMembers(s.world, job.plan.start, job.plan.end, job.plan.inputSequence, attempt.end);
    }
  }

  lemma JudgedShrinks(v: View, checkpoints: seq<Checkpoint>, job: Job, protect: bool, text: string, reply: Reply,
                      projection: Projection, r: Attempt)
    requires Judged(v, checkpoints, job, protect, text, reply, projection, r) && r.Shrinks?
    ensures PicksBelow(v.prefixes, job.plan, r.end)
  {
  }

  lemma PreparedShrinks(p: Prefixes, plan: Selector.Plan, setup: Setup, disturbed: bool, r: Attempt)
    requires Prepared(p, plan, setup, disturbed, r) && r.Shrinks?
    ensures r.end in p.ends && r.end < plan.end
  {
    var fit :| Searched(p, plan, setup, fit) && Follow(p, plan, fit, r);
    var source := Source(plan.start, p.source, setup.client, setup.output);
    ChosenIsCandidate(source, p.ends, CompleteTurnEnds(p.source, p.evidence, p.ends), p.evidence, fit);
  }

  /** The sources a run tries get smaller and smaller, each ending at a safe boundary of the one before. */
  lemma SourcesDescend(s: Scene, job: Job, initial: Option<Claim>, env: nat -> Conditions, n: nat, ends: seq<int>,
                       failed: bool, result: RunResult, i: nat)
    requires Ordered(s.world.log) && Runs(s, job, initial, env, n, ends, failed, result) && i + 1 < |ends|
    ensures job.plan.start <= ends[i + 1] < ends[i]
    ensures SafeWithin(s.world, job.plan.inputSequence, ends[i], ends[i + 1])
  {
    assert StepAt(RoundIn(s, failed), job, initial, env, n, ends, result, i);
    assert NextOf(ends[i + 1..], result) == GoOn(ends[i + 1]);
    GoesOnBelow(s, Shrunk(job, ends[i]), if i == 0 then initial else ClaimAfter(env(n + i - 1)), env(n + i), failed, ends[i + 1]);
  }
}
