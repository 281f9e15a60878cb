/** What holds over any chain of runs: the published checkpoints, the log they summarise, and the
    cost of their summaries. */
module Chain {
  import opened Events
  import opened SourceEnds
  import opened Worlds
  import opened Store
  import opened Candidates
  import opened Rounds
  import opened Runner
  import Selector

  datatype State = State(world: World, checkpoints: seq<Checkpoint>)

  // ----- plans -----

  /** The plan's end is a candidate that the selector was offered in world w: over the events
      from the plan's start to its watermark, with the groups listed for the watermark. */
  ghost predicate Offered(w: World, plan: Selector.Plan, input: Selector.BoundaryInput) {
    && Selector.ValidInput(input)
    && input.sourceStart == plan.start
    && input.events == Range(w.log, plan.start, plan.inputSequence)
    && input.groups == ListAtomicGroups(w, plan.start - 1, plan.inputSequence)
    && input.maximumRetainFrom <= plan.inputSequence + 1
    && plan.end + 1 in Selector.Candidates(input)
  }

  /** The watermark does not separate opening events of a turn. */
  ghost predicate WholeTurns(w: World, watermark: int) {
    !OpeningCut(w.log, watermark, Last(w.log))
  }

  lemma OpeningCutWithin(log: seq<Event>, s: int, watermark: int)
    requires s <= watermark && OpeningCut(log, s, Last(log)) && !OpeningCut(log, watermark, Last(log))
    ensures OpeningCut(log, s, watermark)
  {
    var i, j :| 0 <= i < |log| && 0 <= j < |log| && SpansOpening(log[i], log[j], s, Last(log));
    assert !SpansOpening(log[i], log[j], watermark, Last(log));
    assert SpansOpening(log[i], log[j], s, watermark);
  }

  /** A planned end is safe with every opening event in view, then and ever after. */
  lemma OfferedIsSafe(w: World, w': World, plan: Selector.Plan, input: Selector.BoundaryInput)
    requires Ordered(w.log) && Extends(w, w') && 0 < plan.start && plan.inputSequence <= Last(w.log)
    requires Offered(w, plan, input) && WholeTurns(w, plan.inputSequence)
    ensures plan.start <= plan.end <= plan.inputSequence
    ensures Safe(w', plan.inputSequence, plan.end) && !OpeningCut(w'.log, plan.end, Last(w'.log))
  {
    var watermark := plan.inputSequence;
    Selector.CandidatesMembers(input, plan.end + 1);
    assert Selector.InputEnds(input) == RangeEnds(w, plan.start, watermark, watermark);
    RangeEndsMembers(w, plan.start, watermark, watermark, plan.end);
    if OpeningCut(w.log, plan.end, Last(w.log)) {
      OpeningCutWithin(w.log, plan.end, watermark);
    }
    SafeStable(w, w', watermark, Last(w.log), Last(w'.log), plan.end);
  }

  // ----- chains of runs -----

  /** A run that was handed a planned job and published cp. */
  ghost predicate Publishes(s: State, s': State, job: Job, cp: Checkpoint) {
    && ValidJob(job) && Durable(s.world, job.plan.inputSequence)
    && !OpeningCut(s.world.log, job.plan.end, Last(s.world.log))
    && Outcome(s.world, s.checkpoints, job, Completed(cp), s'.world, s'.checkpoints)
  }

  /** Other work, or a run that published nothing. */
  ghost predicate Grows(s: State, s': State) {
    Extends(s.world, s'.world) && s'.checkpoints == s.checkpoints
  }

  ghost predicate Step(s: State, s': State) {
    Grows(s, s') || exists job, cp :: Publishes(s, s', job, cp)
  }

  ghost predicate IsChain(states: seq<State>) {
    && |states| > 0 && Ordered(states[0].world.log) && states[0].checkpoints == []
    && forall i :: 0 <= i < |states| - 1 ==> StepsAt(states, i)
  }

  ghost predicate StepsAt(states: seq<State>, i: nat)
    requires i + 1 < |states|
  {
    Step(states[i], states[i + 1])
  }

  /** What is remembered of one published checkpoint. */
  ghost predicate Sound(w: World, earlier: seq<Checkpoint>, cp: Checkpoint) {
    && 0 < cp.start <= cp.end <= cp.watermark <= Last(w.log)
    && cp.watermark < cp.eventSequence <= Last(w.log)
    && cp.start == NextStart(earlier, cp.watermark)
    && Safe(w, cp.watermark, cp.end)
    && SummaryReduces(w, earlier, cp)
    && forall i :: 0 <= i < |earlier| ==> earlier[i].eventSequence < cp.eventSequence
  }

  ghost predicate Invariant(s: State) {
    Ordered(s.world.log) && AllSound(s.world, s.checkpoints)
  }

  ghost predicate AllSound(w: World, checkpoints: seq<Checkpoint>) {
    EachAfter(SoundIn(w), checkpoints, |checkpoints|)
  }

  ghost function SoundIn(w: World): (seq<Checkpoint>, Checkpoint) -> bool {
    (earlier: seq<Checkpoint>, cp: Checkpoint) => Sound(w, earlier, cp)
  }

  /** Each of the first n checkpoints stands in relation p to those before it. */
  ghost predicate EachAfter(p: (seq<Checkpoint>, Checkpoint) -> bool, checkpoints: seq<Checkpoint>, n: nat)
    requires n <= |checkpoints|
  {
    n == 0 || (EachAfter(p, checkpoints, n - 1) && p(checkpoints[..n - 1], checkpoints[n - 1]))
  }

  lemma {:induction false} EachAt(p: (seq<Checkpoint>, Checkpoint) -> bool, checkpoints: seq<Checkpoint>, n: nat, k: nat)
    requires k < n <= |checkpoints| && EachAfter(p, checkpoints, n)
    ensures EachAfter(p, checkpoints, k) && p(checkpoints[..k], checkpoints[k])
  {
    if k < n - 1 { EachAt(p, checkpoints, n - 1, k); }
  }

  lemma {:induction false} EachCongruent(p: (seq<Checkpoint>, Checkpoint) -> bool, a: seq<Checkpoint>, b: seq<Checkpoint>, n: nat)
    requires a <= b && n <= |a| && EachAfter(p, a, n)
    ensures EachAfter(p, b, n)
  {
    if n > 0 {
      EachCongruent(p, a, b, n - 1);
      assert a[..n - 1] == b[..n - 1] && a[n - 1] == b[n - 1];
    }
  }

  lemma EachAppend(p: (seq<Checkpoint>, Checkpoint) -> bool, checkpoints: seq<Checkpoint>, cp: Checkpoint)
    requires EachAfter(p, checkpoints, |checkpoints|) && p(checkpoints, cp)
    ensures EachAfter(p, checkpoints + [cp], |checkpoints| + 1)
  {
    var all := checkpoints + [cp];
    EachCongruent(p, checkpoints, all, |checkpoints|);
    assert all[..|checkpoints|] == checkpoints && all[|checkpoints|] == cp;
  }

  lemma SoundAt(w: World, checkpoints: seq<Checkpoint>, k: nat)
    requires k < |checkpoints| && AllSound(w, checkpoints)
    ensures EachAfter(SoundIn(w), checkpoints, k) && Sound(w, checkpoints[..k], checkpoints[k])
  {
    EachAt(SoundIn(w), checkpoints, |checkpoints|, k);
  }

  lemma {:induction false} EachImplies(p: (seq<Checkpoint>, Checkpoint) -> bool, q: (seq<Checkpoint>, Checkpoint) -> bool,
                                       checkpoints: seq<Checkpoint>, n: nat)
    requires n <= |checkpoints| && EachAfter(p, checkpoints, n)
    requires forall earlier, cp :: p(earlier, cp) ==> q(earlier, cp)
    ensures EachAfter(q, checkpoints, n)
  {
    if n > 0 { EachImplies(p, q, checkpoints, n - 1); }
  }

  /** Growth keeps the soundness of the checkpoints that were there. */
  lemma AllSoundStable(w: World, w': World, checkpoints: seq<Checkpoint>)
    requires Extends(w, w') && AllSound(w, checkpoints)
    ensures AllSound(w', checkpoints)
  {
    forall earlier, cp | SoundIn(w)(earlier, cp) ensures SoundIn(w')(earlier, cp) {
      SoundStable(w, w', earlier, cp);
    }
    EachImplies(SoundIn(w), SoundIn(w'), checkpoints, |checkpoints|);
  }

  lemma SoundStable(w: World, w': World, earlier: seq<Checkpoint>, cp: Checkpoint)
    requires Extends(w, w') && Sound(w, earlier, cp)
    ensures Sound(w', earlier, cp)
  {
    PrefixOrdered(w.log, w'.log);
    SafeStable(w, w', cp.watermark, Last(w.log), Last(w'.log), cp.end);
    RangeStable(w.log, w'.log, cp.start, cp.end);
  }

  lemma EventsBefore(s: State, cp: Checkpoint)
    requires Invariant(s) && Last(s.world.log) < cp.eventSequence
    ensures forall i :: 0 <= i < |s.checkpoints| ==> s.checkpoints[i].eventSequence < cp.eventSequence
  {
    forall i | 0 <= i < |s.checkpoints| ensures s.checkpoints[i].eventSequence < cp.eventSequence {
      SoundAt(s.world, s.checkpoints, i);
    }
  }

  lemma PublishedIsSound(s: State, s': State, job: Job, cp: Checkpoint)
    requires Invariant(s) && Publishes(s, s', job, cp)
    ensures Sound(s'.world, s.checkpoints, cp)
  {
    var w, w' := s.world, s'.world;
    PrefixOrdered(w.log, w'.log);
    assert Safe(w', cp.watermark, cp.end) by {
      SafeUnlessEndCutsOpening(w, cp.watermark, job.plan.end, cp.end);
      SafeStable(w, w', cp.watermark, Last(w.log), Last(w'.log), cp.end);
    }
    assert Range(w'.log, cp.start, cp.end) == Range(w.log, cp.start, cp.end) by {
      RangeStable(w.log, w'.log, cp.start, cp.end);
    }
    EventsBefore(s, cp);
  }

  /** Every step keeps every published checkpoint sound. */
  lemma StepKeepsInvariant(s: State, s': State)
    requires Invariant(s) && Step(s, s')
    ensures Invariant(s') && Extends(s.world, s'.world)
    ensures s.checkpoints <= s'.checkpoints
  {
    if Grows(s, s') {
      AllSoundStable(s.world, s'.world, s.checkpoints);
    } else {
      var job, cp :| Publishes(s, s', job, cp);
      PublishKeepsInvariant(s, s', job, cp);
    }
  }

  lemma PublishKeepsInvariant(s: State, s': State, job: Job, cp: Checkpoint)
    requires Invariant(s) && Publishes(s, s', job, cp)
    ensures Invariant(s') && Extends(s.world, s'.world) && s'.checkpoints == s.checkpoints + [cp]
  {
    AllSoundStable(s.world, s'.world, s.checkpoints);
    PublishedIsSound(s, s', job, cp);
    EachAppend(SoundIn(s'.world), s.checkpoints, cp);
  }

  /** Safety over whole chains: in every reachable state no checkpoint boundary separates a tool
      call from its result or two opening events of a turn, at whatever time they were added. */
  lemma {:induction false} EveryChainIsSound(states: seq<State>, n: nat)
    requires IsChain(states) && n < |states|
    ensures Invariant(states[n])
  {
    if n > 0 {
      EveryChainIsSound(states, n - 1);
      assert StepsAt(states, n - 1);
      StepKeepsInvariant(states[n - 1], states[n]);
    }
  }

  ghost predicate Precedes(a: State, b: State) {
    Extends(a.world, b.world) && a.checkpoints <= b.checkpoints
  }

  lemma ChainStep(states: seq<State>, i: nat)
    requires IsChain(states) && i + 1 < |states|
    ensures Precedes(states[i], states[i + 1])
  {
    EveryChainIsSound(states, i);
    assert StepsAt(states, i);
    StepKeepsInvariant(states[i], states[i + 1]);
  }

  lemma PrecedesTransitive(a: State, b: State, c: State)
    requires Precedes(a, b) && Precedes(b, c)
    ensures Precedes(a, c)
  {
    ExtendsTransitive(a.world, b.world, c.world);
  }

  lemma {:induction false} ChainGrows(states: seq<State>, i: nat, j: nat)
    requires IsChain(states) && i < j < |states|
    ensures Precedes(states[i], states[j])
    decreases j - i
  {
    if i + 1 == j {
      ChainStep(states, i);
    } else {
      ChainGrows(states, i, j - 1);
      ChainStep(states, j - 1);
      PrecedesTransitive(states[i], states[j - 1], states[j]);
    }
  }

  /** What a publishing step says about its opening events and its checkpoint. */
  lemma PublishedKeepsOpening(s: State, s': State, job: Job, cp: Checkpoint)
    requires Publishes(s, s', job, cp)
    ensures cp.watermark <= Last(s.world.log) && s'.checkpoints == s.checkpoints + [cp]
    ensures Unanswered(s.world.log, job.opening, cp.watermark) ==> cp.end < job.opening
  {
  }

  lemma StillPublished(a: State, b: State, before: seq<Checkpoint>, cp: Checkpoint)
    requires a.checkpoints == before + [cp] && a.checkpoints <= b.checkpoints
    ensures cp in b.checkpoints
  {
    assert a.checkpoints[|before|] == cp;
    assert b.checkpoints[|before|] == cp;
  }

  /** Over any chain: opening events that were unanswered at a run's watermark are never in what
      that run summarised, at whatever later state the question is asked. */
  lemma UnansweredOpeningIsKept(states: seq<State>, i: nat, j: nat, job: Job, cp: Checkpoint)
    requires IsChain(states) && i + 1 <= j < |states| && Publishes(states[i], states[i + 1], job, cp)
    requires Unanswered(states[j].world.log, job.opening, cp.watermark)
    ensures cp.end < job.opening && cp in states[j].checkpoints
  {
    var s, s', t := states[i], states[i + 1], states[j];
    PublishedKeepsOpening(s, s', job, cp);
    assert s'.checkpoints <= t.checkpoints by { if i + 1 < j { ChainGrows(states, i + 1, j); } }
    StillPublished(s', t, s.checkpoints, cp);
    assert Extends(s.world, t.world) by { ChainGrows(states, i, j); }
    UnansweredStable(s.world.log, t.world.log, job.opening, cp.watermark);
  }

  /** A completed run on a planned job is a step of a chain. */
  lemma RunIsStep(s: State, s': State, job: Job, result: RunResult)
    requires Ordered(s.world.log) && Durable(s.world, job.plan.inputSequence) && ValidJob(job)
    requires !OpeningCut(s.world.log, job.plan.end, Last(s.world.log))
    requires Outcome(s.world, s.checkpoints, job, result, s'.world, s'.checkpoints)
    ensures Step(s, s')
  {
    if result.Completed? {
      assert Publishes(s, s', job, result.checkpoint);
    }
  }

  /** In every reachable state no group the store can list, whatever the query, is cut by a
      checkpoint's end. */
  lemma NoGroupIsCut(states: seq<State>, n: nat, k: nat, last: int, input: int)
    requires IsChain(states) && n < |states| && k < |states[n].checkpoints|
    ensures !CutByAny(ListAtomicGroups(states[n].world, last, input), states[n].checkpoints[k].end)
  {
    var s := states[n];
    var cp := s.checkpoints[k];
    EveryChainIsSound(states, n);
    SoundAt(s.world, s.checkpoints, k);
    SafeIsUncut(s.world, cp.watermark, cp.end, input);
    if CutByAny(ListAtomicGroups(s.world, last, input), cp.end) {
      ListedCutIsReal(s.world, last, input, cp.end);
      assert false;
    }
  }

  lemma SafeIsUncut(w: World, watermark: int, s: int, input: int)
    requires Ordered(w.log) && Safe(w, watermark, s)
    ensures !ToolCut(w.tools, s) && !OpeningCut(w.log, s, input)
  {
    forall i, j | 0 <= i < |w.log| && 0 <= j < |w.log| ensures
      SpansOpening(w.log[i], w.log[j], s, input) ==> SpansOpening(w.log[i], w.log[j], s, Last(w.log))
    {
      Sequences(w.log, j, j);
    }
  }

  // ----- tiling -----

  /** The checkpoints cover the log from 1 without gap or overlap. */
  ghost predicate Tiles(checkpoints: seq<Checkpoint>) {
    forall k :: 0 <= k < |checkpoints| ==> TiledAt(checkpoints, k)
  }

  predicate TiledAt(checkpoints: seq<Checkpoint>, k: nat)
    requires k < |checkpoints|
  {
    checkpoints[k].start == FrontierBefore(checkpoints, k)
  }

  /** Where the k-th range has to start. */
  function FrontierBefore(checkpoints: seq<Checkpoint>, k: nat): int
    requires k < |checkpoints|
  {
    if k == 0 then 1 else checkpoints[k - 1].end + 1
  }

  /** Every run saw the checkpoint published before it. */
  ghost predicate SeesPredecessor(checkpoints: seq<Checkpoint>) {
    forall k :: 0 < k < |checkpoints| ==> SeesAt(checkpoints, k)
  }

  predicate SeesAt(checkpoints: seq<Checkpoint>, k: nat)
    requires 0 < k < |checkpoints|
  {
    Covers(checkpoints[k - 1], checkpoints[k])
  }

  predicate Covers(earlier: Checkpoint, later: Checkpoint) {
    earlier.eventSequence <= later.watermark
  }

  lemma NextStartAfterLast(checkpoints: seq<Checkpoint>, watermark: int)
    requires |checkpoints| > 0 && checkpoints[|checkpoints| - 1].eventSequence <= watermark
    ensures LatestApplicable(checkpoints, watermark) == Some(checkpoints[|checkpoints| - 1])
  {
  }

  /** A start below the last end, when the last checkpoint was not seen. */
  lemma {:induction false} NextStartBounded(checkpoints: seq<Checkpoint>, watermark: int, bound: int)
    requires forall i :: 0 <= i < |checkpoints| ==> checkpoints[i].end <= bound
    requires 0 <= bound
    ensures NextStart(checkpoints, watermark) <= bound + 1
  {
    if |checkpoints| > 0 && checkpoints[|checkpoints| - 1].eventSequence > watermark {
      NextStartBounded(checkpoints[..|checkpoints| - 1], watermark, bound);
    }
  }

  lemma {:induction false} TilesAscend(checkpoints: seq<Checkpoint>, i: nat, j: nat)
    requires Tiles(checkpoints) && forall k :: 0 <= k < |checkpoints| ==> checkpoints[k].start <= checkpoints[k].end
    requires i <= j < |checkpoints|
    ensures checkpoints[i].end <= checkpoints[j].end
    decreases j - i
  {
    if i < j {
      TilesAscend(checkpoints, i, j - 1);
      assert TiledAt(checkpoints, j);
    }
  }

  /** Each start is where the run's latest applicable checkpoint ended. */
  ghost predicate Lineage(checkpoints: seq<Checkpoint>) {
    forall k :: 0 <= k < |checkpoints| ==> LinkedAt(checkpoints, k)
  }

  ghost predicate LinkedAt(checkpoints: seq<Checkpoint>, k: nat)
    requires k < |checkpoints|
  {
    && 0 < checkpoints[k].start <= checkpoints[k].end
    && checkpoints[k].start == NextStart(checkpoints[..k], checkpoints[k].watermark)
  }

  lemma InvariantGivesLineage(s: State)
    requires Invariant(s)
    ensures Lineage(s.checkpoints)
  {
    var cps := s.checkpoints;
    forall k | 0 <= k < |cps| ensures LinkedAt(cps, k) {
      SoundAt(s.world, cps, k);
    }
  }

  /** A run that does not see its predecessor summarises the predecessor's source again. */
  lemma UnseenOverlaps(cps: seq<Checkpoint>, k: nat)
    requires Lineage(cps) && 0 < k < |cps| && Tiles(cps[..k]) && !Covers(cps[k - 1], cps[k])
    ensures cps[k].start <= cps[k - 1].start
  {
    var seen := cps[..k];
    assert LinkedAt(cps, k) && TiledAt(seen, k - 1);
    forall i | 0 <= i < k ensures 0 < seen[i].start <= seen[i].end {
      assert LinkedAt(cps, i);
    }
    NextStartBelow(seen, cps[k].watermark);
  }

  lemma NextStartBelow(seen: seq<Checkpoint>, watermark: int)
    requires |seen| > 0 && Tiles(seen) && forall i :: 0 <= i < |seen| ==> 0 < seen[i].start <= seen[i].end
    requires watermark < seen[|seen| - 1].eventSequence
    ensures NextStart(seen, watermark) <= FrontierBefore(seen, |seen| - 1)
  {
    var n := |seen| - 1;
    var bound := if n == 0 then 0 else seen[n - 1].end;
    forall i | 0 <= i < n ensures seen[..n][i].end <= bound {
      TilesAscend(seen, i, n - 1);
    }
    NextStartBounded(seen[..n], watermark, bound);
  }

  lemma TilesOnlyIfSeen(cps: seq<Checkpoint>, k: nat)
    requires Lineage(cps) && Tiles(cps) && 0 < k < |cps|
    ensures Covers(cps[k - 1], cps[k])
  {
    TilesPrefix(cps, k);
    assert TiledAt(cps, k) && LinkedAt(cps, k - 1);
    if !Covers(cps[k - 1], cps[k]) { UnseenOverlaps(cps, k); }
  }

  lemma SeenTiles(cps: seq<Checkpoint>, k: nat)
    requires Lineage(cps) && SeesPredecessor(cps) && k < |cps|
    ensures cps[k].start == FrontierBefore(cps, k)
  {
    assert LinkedAt(cps, k);
    if k > 0 {
      assert SeesAt(cps, k);
      NextStartAfterLast(cps[..k], cps[k].watermark);
    }
  }

  lemma TilesIff(cps: seq<Checkpoint>)
    requires Lineage(cps)
    ensures Tiles(cps) <==> SeesPredecessor(cps)
  {
    if Tiles(cps) {
      forall k | 0 < k < |cps| ensures SeesAt(cps, k) { TilesOnlyIfSeen(cps, k); }
    } else if SeesPredecessor(cps) {
      forall k | 0 <= k < |cps| ensures TiledAt(cps, k) { SeenTiles(cps, k); }
    }
  }

  lemma TilesPrefix(cps: seq<Checkpoint>, k: nat)
    requires Tiles(cps) && k <= |cps|
    ensures Tiles(cps[..k])
  {
    forall i | 0 <= i < k ensures TiledAt(cps[..k], i) {
      assert TiledAt(cps, i);
    }
  }

  /** In every reachable state the published ranges tile the log from 1 exactly when each run's
      watermark had reached the event of the checkpoint published before it. */
  lemma ChainTilesIff(states: seq<State>, n: nat)
    requires IsChain(states) && n < |states|
    ensures Tiles(states[n].checkpoints) <==> SeesPredecessor(states[n].checkpoints)
  {
    EveryChainIsSound(states, n);
    InvariantGivesLineage(states[n]);
    TilesIff(states[n].checkpoints);
  }

  function CheckpointEvent(sequence: int): Event {
    Event(sequence, 5, false, ContextCheckpoint, "", "", "", Content(0, Some(0)), None)
  }

  /** The state after cp is recorded with its event. */
  function Recorded(s: State, cp: Checkpoint): State {
    State(World(s.world.log + [CheckpointEvent(cp.eventSequence)], s.world.tools), s.checkpoints + [cp])
  }

  /** A planned run may publish cp next. */
  ghost predicate MayPublish(s: State, job: Job, cp: Checkpoint) {
    && ValidJob(job) && Durable(s.world, job.plan.inputSequence)
    && !OpeningCut(s.world.log, job.plan.end, Last(s.world.log))
    && Unpublished(s.checkpoints, cp.watermark, cp.end)
    && Justified(s.world, s.checkpoints, job, cp) && cp.eventSequence == Last(s.world.log) + 1
  }

  lemma MayPublishSteps(s: State, job: Job, cp: Checkpoint)
    requires Ordered(s.world.log) && MayPublish(s, job, cp)
    ensures Step(s, Recorded(s, cp)) && Ordered(Recorded(s, cp).world.log)
    ensures Extends(s.world, Recorded(s, cp).world) && Last(Recorded(s, cp).world.log) == Last(s.world.log) + 1
  {
    AppendExtends(s.world, CheckpointEvent(cp.eventSequence));
    assert Publishes(s, Recorded(s, cp), job, cp);
  }

  /** A checkpoint past the watermark does not change where a run at that watermark starts. */
  lemma PriorUnchanged(checkpoints: seq<Checkpoint>, cp: Checkpoint, watermark: int)
    requires watermark < cp.eventSequence
    ensures LatestApplicable(checkpoints + [cp], watermark) == LatestApplicable(checkpoints, watermark)
  {
    assert (checkpoints + [cp])[..|checkpoints|] == checkpoints;
  }

  lemma SummaryReducesLater(w: World, w': World, before: seq<Checkpoint>, after: seq<Checkpoint>, cp: Checkpoint, at: int)
    requires Ordered(w'.log) && w.log <= w'.log && cp.end <= Last(w.log)
    requires LatestApplicable(after, cp.watermark) == LatestApplicable(before, cp.watermark)
    requires SummaryReduces(w, before, cp)
    ensures SummaryReduces(w', after, cp.(eventSequence := at))
  {
    assert Range(w'.log, cp.start, cp.end) == Range(w.log, cp.start, cp.end) by {
      RangeStable(w.log, w'.log, cp.start, cp.end);
    }
  }

  lemma JustifiedLater(w: World, w': World, before: seq<Checkpoint>, after: seq<Checkpoint>, job: Job, cp: Checkpoint, at: int)
    requires Ordered(w.log) && Extends(w, w') && ValidJob(job) && Durable(w, job.plan.inputSequence)
    requires LatestApplicable(after, cp.watermark) == LatestApplicable(before, cp.watermark)
    requires Justified(w, before, job, cp) && Last(w'.log) < at
    ensures Justified(w', after, job, cp.(eventSequence := at))
  {
    assert NextStart(after, cp.watermark) == NextStart(before, cp.watermark);
    assert SummaryReduces(w', after, cp.(eventSequence := at)) by {
      SummaryReducesLater(w, w', before, after, cp, at);
    }
    SafeAndOpeningLater(w, w', job, cp);
  }

  lemma SafeAndOpeningLater(w: World, w': World, job: Job, cp: Checkpoint)
    requires Extends(w, w') && cp.end <= cp.watermark <= Last(w.log)
    requires SafeWithin(w, cp.watermark, job.plan.end, cp.end)
    requires Unanswered(w.log, job.opening, cp.watermark) ==> cp.end < job.opening
    ensures SafeWithin(w', cp.watermark, job.plan.end, cp.end)
    ensures Unanswered(w'.log, job.opening, cp.watermark) ==> cp.end < job.opening
  {
    SafeStable(w, w', cp.watermark, job.plan.end, job.plan.end, cp.end);
    UnansweredStable(w.log, w'.log, job.opening, cp.watermark);
  }

  lemma StillUnpublished(checkpoints: seq<Checkpoint>, cp: Checkpoint, next: Checkpoint)
    requires Unpublished(checkpoints, next.watermark, next.end) && next.watermark != cp.watermark && next.end != cp.end
    ensures Unpublished(checkpoints + [cp], next.watermark, next.end)
  {
  }

  lemma SecondMayPublish(s: State, cp: Checkpoint, job: Job, next: Checkpoint)
    requires Ordered(s.world.log) && MayPublish(s, job, next)
    requires cp.eventSequence == Last(s.world.log) + 1 && next.watermark != cp.watermark && next.end != cp.end
    ensures MayPublish(Recorded(s, cp), job, next.(eventSequence := cp.eventSequence + 1))
  {
    var w, w' := s.world, Recorded(s, cp).world;
    AppendExtends(w, CheckpointEvent(cp.eventSequence));
    assert Last(w'.log) == cp.eventSequence;
    assert Justified(w', s.checkpoints + [cp], job, next.(eventSequence := cp.eventSequence + 1)) by {
      PriorUnchanged(s.checkpoints, cp, next.watermark);
      JustifiedLater(w, w', s.checkpoints, s.checkpoints + [cp], job, next, cp.eventSequence + 1);
    }
    assert !OpeningCut(w'.log, job.plan.end, Last(w'.log)) by {
      OpeningCutStable(w, w', job.plan.end, Last(w.log), Last(w'.log));
    }
    StillUnpublished(s.checkpoints, cp, next);
  }

  /** A checkpoint published at a watermark that its predecessor's event is past breaks the tiling. */
  lemma UnseenDoesNotTile(s: State, before: seq<Checkpoint>, cp: Checkpoint, next: Checkpoint)
    requires Invariant(s) && s.checkpoints == before + [cp] + [next] && next.watermark < cp.eventSequence
    ensures !Tiles(s.checkpoints)
  {
    var k := |before| + 1;
    InvariantGivesLineage(s);
    TilesIff(s.checkpoints);
    assert s.checkpoints[k] == next && s.checkpoints[k - 1] == cp;
    assert !SeesAt(s.checkpoints, k);
  }

  /** For callers that do not keep to the newest watermark the ranges overlap: whenever runs may
      publish at two watermarks, one after the other is a chain, and the second starts over. */
  lemma OlderWatermarkOverlaps(s: State, job: Job, cp: Checkpoint, job': Job, cp': Checkpoint)
    requires Invariant(s) && MayPublish(s, job, cp) && MayPublish(s, job', cp')
    requires cp'.watermark != cp.watermark && cp'.end != cp.end
    ensures var s1 := Recorded(s, cp);
      var s2 := Recorded(s1, cp'.(eventSequence := cp.eventSequence + 1));
      Step(s, s1) && Step(s1, s2) && !Tiles(s2.checkpoints)
  {
    var next := cp'.(eventSequence := cp.eventSequence + 1);
    var s1 := Recorded(s, cp);
    var s2 := Recorded(s1, next);
    assert Step(s, s1) by { MayPublishSteps(s, job, cp); }
    assert Invariant(s1) by { StepKeepsInvariant(s, s1); }
    assert Step(s1, s2) by {
      SecondMayPublish(s, cp, job', cp');
      MayPublishSteps(s1, job', next);
    }
    assert Invariant(s2) by { StepKeepsInvariant(s1, s2); }
    UnseenDoesNotTile(s2, s.checkpoints, cp, next);
  }

  function Output(sequence: int): Event {
    Event(sequence, 5, false, ModelOutput, "", "", "", Content(8, Some(1)), Some("12345678"))
  }

  /** Three model outputs and no checkpoint: runs may publish at watermark 3 for two events and at
      watermark 2 for one. */
  lemma TwoRunsMayPublish() returns (s: State, job: Job, cp: Checkpoint, job': Job, cp': Checkpoint)
    ensures IsChain([s]) && MayPublish(s, job, cp) && MayPublish(s, job', cp')
    ensures cp'.watermark < cp.watermark && cp'.end < cp.end
  {
    var log := [Output(1), Output(2), Output(3)];
    s := State(World(log, []), []);
    job, cp := Job(Selector.Plan(1, 1, 3, 1, 2), 1, 1, 1, 1, 1), Checkpoint(1, 2, 3, 4, "s");
    job', cp' := Job(Selector.Plan(1, 1, 2, 1, 1), 1, 1, 1, 1, 1), Checkpoint(1, 1, 2, 4, "s");
    SmallLog(log);
    SmallMayPublish(s, log, job, cp);
    SmallMayPublish(s, log, job', cp');
  }

  lemma SmallMayPublish(s: State, log: seq<Event>, job: Job, cp: Checkpoint)
    requires log == [Output(1), Output(2), Output(3)] && s == State(World(log, []), [])
    requires 1 <= cp.end <= 2 && cp == Checkpoint(1, cp.end, cp.end + 1, 4, "s")
    requires job == Job(Selector.Plan(1, 1, cp.watermark, 1, cp.end), 1, 1, 1, 1, 1)
    ensures MayPublish(s, job, cp)
  {
    SmallLog(log);
    assert SafeWithin(s.world, cp.watermark, cp.end, cp.end) by { SmallSafe(log, cp.end, cp.watermark); }
    assert !OpeningCut(log, cp.end, 3) by { SmallSafe(log, cp.end, cp.watermark); }
    assert SummaryReduces(s.world, [], cp) by { SmallSource(log, cp.end); }
  }

  lemma SmallSafe(log: seq<Event>, end: int, watermark: int)
    requires log == [Output(1), Output(2), Output(3)] && 1 <= end <= 2
    ensures SafeWithin(World(log, []), watermark, end, end) && !OpeningCut(log, end, 3)
  {
    assert log[end - 1].sequence == end && SafeEvent(World(log, []), watermark, end, log[end - 1]);
  }

  lemma SmallLog(log: seq<Event>)
    requires log == [Output(1), Output(2), Output(3)]
    ensures Ordered(log) && Last(log) == 3 && !Unanswered(log, 1, 2) && !Unanswered(log, 1, 3)
  {
    ThreeInOrder(log);
    assert Output(2) in Range(log, 2, 2) && Output(2) in Range(log, 2, 3) by {
      RangeComplete(log, 2, 2, 1);
      RangeComplete(log, 2, 3, 1);
    }
    AnyFound(Range(log, 2, 2), IsOutput, Output(2));
    AnyFound(Range(log, 2, 3), IsOutput, Output(2));
  }

  lemma ThreeInOrder(log: seq<Event>)
    requires |log| == 3 && log[0].sequence == 1 && log[1].sequence == 2 && log[2].sequence == 3
    ensures Ordered(log) && Last(log) == 3
  {
    assert OrderedTo(log, 0);
    assert OrderedTo(log, 1);
    assert OrderedTo(log, 2);
    assert OrderedTo(log, 3);
  }

  lemma SmallSource(log: seq<Event>, end: int)
    requires log == [Output(1), Output(2), Output(3)] && 1 <= end <= 2
    ensures var source := Render(Range(log, 1, end)); source.Some? && |source.value| == 8 * end
  {
    ThreeInOrder(log);
    UpToIs(log, 0, 0);
    UpToIs(log, end, end);
    assert Range(log, 1, end) == log[..end];
    SmallRender(log, 1);
    if end == 2 { SmallRender(log, 2); }
  }

  lemma {:induction false} SmallRender(log: seq<Event>, end: nat)
    requires log == [Output(1), Output(2), Output(3)] && end <= 2
    ensures Render(log[..end]).Some? && |Render(log[..end]).value| == 8 * end
  {
    if end > 0 {
      SmallRender(log, end - 1);
      assert log[..end][..end - 1] == log[..end - 1] && log[..end][end - 1] == Output(end);
      assert |"12345678"| == 8;
    }
  }

  // ----- the plan a run is handed -----

  function OpeningInput(sequence: int): Event {
    Event(sequence, 5, true, AgentInput, "", "", "", Content(8, Some(1)), Some("a"))
  }

  /** Handed an end inside a turn's opening events, a run takes it for safe: the listing for the
      source end does not show the opening events past it. */
  lemma HandedPlanMaySplitOpening() returns (w: World)
    ensures Ordered(w.log) && Last(w.log) == 3 && SafeWithin(w, 3, 1, 1) && !Safe(w, 3, 1)
  {
    var log := [OpeningInput(1), OpeningInput(2), Output(3)];
    w := World(log, []);
    ThreeInOrder(log);
    assert SettledBy(log, 3, log[0]) by { assert Answers(log[2], log[0], 3); }
    assert SafeWithin(w, 3, 1, 1) by { assert log[0].sequence == 1 && SafeEvent(w, 3, 1, log[0]); }
    assert OpeningCut(log, 1, 3) by { assert SpansOpening(log[0], log[1], 1, 3); }
  }

  /** A turn has an opening event at or before `end` and another past `planned`. */
  ghost predicate OpeningHidden(log: seq<Event>, end: int, planned: int) {
    exists i, j :: 0 <= i < |log| && 0 <= j < |log| && HidesOpening(log[i], log[j], end, planned)
  }

  predicate HidesOpening(a: Event, b: Event, end: int, planned: int) {
    SameOpening(a, b) && a.sequence <= end && planned < b.sequence
  }

  /** ... and exactly then: what a run with that planned end takes for safe is safe in full unless
      a turn's opening events reach from before it to past the planned end. The planned end is then
      inside that turn's opening events too, and the selector never offers such an end. */
  lemma TakenForSafeIsSafeIff(w: World, watermark: int, planned: int, end: int)
    requires Ordered(w.log) && end <= planned && SafeWithin(w, watermark, planned, end)
    ensures Safe(w, watermark, end) <==> !OpeningHidden(w.log, end, planned)
    ensures OpeningHidden(w.log, end, planned) ==> OpeningCut(w.log, planned, Last(w.log))
  {
    if i, j :| 0 <= i < |w.log| && 0 <= j < |w.log| && HidesOpening(w.log[i], w.log[j], end, planned) {
      Sequences(w.log, j, j);
      assert SpansOpening(w.log[i], w.log[j], end, Last(w.log));
      assert SpansOpening(w.log[i], w.log[j], planned, Last(w.log));
    }
    assert forall i, j :: 0 <= i < |w.log| && 0 <= j < |w.log| && SpansOpening(w.log[i], w.log[j], end, Last(w.log)) ==>
      HidesOpening(w.log[i], w.log[j], end, planned) || SpansOpening(w.log[i], w.log[j], end, planned);
  }

  // ----- what the summaries cost -----

  /** Source tokens of a checkpoint, less the required savings. */
  ghost function NetSource(w: World, cp: Checkpoint): int {
    var source := Render(Range(w.log, cp.start, cp.end));
    var tokens := if source.Some? then Tokens(source.value) else 0;
    tokens - Max(tokens / 10, 1)
  }

  ghost function NetSources(w: World, checkpoints: seq<Checkpoint>, n: nat): int
    requires n <= |checkpoints|
  {
    if n == 0 then 0 else NetSources(w, checkpoints, n - 1) + NetSource(w, checkpoints[n - 1])
  }

  /** What the checkpoint applicable at a watermark was made from, among the first n: its own source,
      then that of the checkpoint applicable to its run, and so on back, each less its required
      savings. */
  ghost function LineageSources(w: World, checkpoints: seq<Checkpoint>, n: nat, watermark: int): int
    requires n <= |checkpoints|
  {
    if n == 0 then 0
    else if checkpoints[n - 1].eventSequence <= watermark then
      NetSource(w, checkpoints[n - 1]) + LineageSources(w, checkpoints, n - 1, checkpoints[n - 1].watermark)
    else LineageSources(w, checkpoints, n - 1, watermark)
  }

  /** The summary costs no more than the prior summary and the checkpoint's source, less savings. */
  ghost function SavesIn(w: World): (seq<Checkpoint>, Checkpoint) -> bool {
    (earlier: seq<Checkpoint>, cp: Checkpoint) =>
      Tokens(cp.summary) <= Tokens(PriorSummary(earlier, cp.watermark)) + NetSource(w, cp)
  }

  lemma AllSave(w: World, checkpoints: seq<Checkpoint>, n: nat)
    requires n <= |checkpoints| && EachAfter(SoundIn(w), checkpoints, n)
    ensures EachAfter(SavesIn(w), checkpoints, n)
  {
    forall earlier, cp | SoundIn(w)(earlier, cp) ensures SavesIn(w)(earlier, cp) {
      SummaryIsCheaper(w, earlier, cp);
    }
    EachImplies(SoundIn(w), SavesIn(w), checkpoints, n);
  }

  lemma {:induction false} LineageCost(w: World, checkpoints: seq<Checkpoint>, n: nat, watermark: int)
    requires n <= |checkpoints| && EachAfter(SavesIn(w), checkpoints, n)
    ensures Tokens(PriorSummary(checkpoints[..n], watermark)) <= LineageSources(w, checkpoints, n, watermark)
  {
    if n > 0 {
      var cp := checkpoints[n - 1];
      assert checkpoints[..n][..n - 1] == checkpoints[..n - 1];
      if cp.eventSequence <= watermark {
        assert PriorSummary(checkpoints[..n], watermark) == cp.summary;
        LineageCost(w, checkpoints, n - 1, cp.watermark);
      } else {
        assert PriorSummary(checkpoints[..n], watermark) == PriorSummary(checkpoints[..n - 1], watermark);
        LineageCost(w, checkpoints, n - 1, watermark);
      }
    }
  }

  /** Over any chain, a summary costs at most its own source and all the sources along its lineage,
      each less its required savings. */
  lemma SummaryCostTelescopes(states: seq<State>, last: nat, k: nat)
    requires IsChain(states) && last < |states| && k < |states[last].checkpoints|
    ensures var w, cps := states[last].world, states[last].checkpoints;
      Tokens(cps[k].summary) <= NetSource(w, cps[k]) + LineageSources(w, cps, k, cps[k].watermark)
  {
    EveryChainIsSound(states, last);
    CostAlongLineage(states[last], k);
  }

  lemma CostAlongLineage(s: State, k: nat)
    requires Invariant(s) && k < |s.checkpoints|
    ensures Tokens(s.checkpoints[k].summary) <=
      NetSource(s.world, s.checkpoints[k]) + LineageSources(s.world, s.checkpoints, k, s.checkpoints[k].watermark)
  {
    var w, cps := s.world, s.checkpoints;
    AllSave(w, cps, |cps|);
    EachAt(SavesIn(w), cps, |cps|, k);
    LineageCost(w, cps, k, cps[k].watermark);
  }

  /** When every run saw its predecessor, the lineage is all that was published before. */
  lemma {:induction false} LineageIsAll(w: World, checkpoints: seq<Checkpoint>, n: nat, watermark: int)
    requires n <= |checkpoints| && SeesPredecessor(checkpoints)
    requires n > 0 ==> checkpoints[n - 1].eventSequence <= watermark
    ensures LineageSources(w, checkpoints, n, watermark) == NetSources(w, checkpoints, n)
  {
    if n > 0 {
      assert n > 1 ==> SeesAt(checkpoints, n - 1);
      LineageIsAll(w, checkpoints, n - 1, checkpoints[n - 1].watermark);
    }
  }

  /** Then the n-th summary costs at most the sum of all n sources, each less its required savings. */
  lemma CumulativeCost(s: State, n: nat)
    requires Invariant(s) && SeesPredecessor(s.checkpoints) && 0 < n <= |s.checkpoints|
    ensures Tokens(s.checkpoints[n - 1].summary) <= NetSources(s.world, s.checkpoints, n)
  {
    CostAlongLineage(s, n - 1);
    CumulativeFrom(s.world, s.checkpoints, n);
  }

  lemma CumulativeFrom(w: World, cps: seq<Checkpoint>, n: nat)
    requires 0 < n <= |cps| && SeesPredecessor(cps)
    ensures NetSource(w, cps[n - 1]) + LineageSources(w, cps, n - 1, cps[n - 1].watermark) == NetSources(w, cps, n)
  {
    assert n > 1 ==> SeesAt(cps, n - 1);
    LineageIsAll(w, cps, n - 1, cps[n - 1].watermark);
  }

  /** Each cumulative summary costs strictly less than what it replaces. */
  lemma SummaryIsCheaper(w: World, earlier: seq<Checkpoint>, cp: Checkpoint)
    requires SummaryReduces(w, earlier, cp)
    ensures Tokens(cp.summary) <
      Tokens(PriorSummary(earlier, cp.watermark)) + Tokens(Render(Range(w.log, cp.start, cp.end)).value)
    ensures Tokens(cp.summary) <= Tokens(PriorSummary(earlier, cp.watermark)) + NetSource(w, cp)
  {
  }
}
