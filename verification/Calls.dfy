/** The order in which the server makes model calls for an agent, and what it means for the
    checkpoints: compactions run only at the watermark of the newest normal call. */
module Calls {
  import opened Events
  import opened Worlds
  import opened Store
  import opened Rounds
  import opened Runner
  import C = Chain
  import Selector

  /** The one model call an agent may have under way, with its event watermark. */
  datatype Call = Idle | Normal(watermark: int) | Compaction(watermark: int)

  /** `newest` is the watermark of the last normal call that was claimed, 0 before the first. */
  datatype State = State(chain: C.State, newest: int, live: Call)

  // ----- steps -----

  /** Other transactions append events, or a compaction run ends without publishing. */
  ghost predicate Works(s: State, s': State) {
    C.Grows(s.chain, s'.chain) && s'.newest == s.newest && s'.live == s.live
  }

  /** A normal call is claimed with no call under way, at the end of the log. */
  ghost predicate ClaimsNormal(s: State, s': State) {
    && s.live.Idle? && s'.chain == s.chain
    && s'.newest == Last(s.chain.world.log) && s'.live == Normal(s'.newest)
  }

  /** A normal call over budget fails and its compaction is claimed, in one transaction. */
  ghost predicate HandsOff(s: State, s': State) {
    && s.live.Normal? && s'.chain == s.chain && s'.newest == s.newest
    && s'.live == Compaction(s.live.watermark)
  }

  /** A call ends, for whatever reason. */
  ghost predicate Ends(s: State, s': State) {
    s'.chain == s.chain && s'.newest == s.newest && s'.live.Idle?
  }

  /** A failed call is claimed again; calls older than the newest normal one are not continued. */
  ghost predicate Resumes(s: State, s': State) {
    && s.live.Idle? && 0 < s.newest && s'.chain == s.chain && s'.newest == s.newest
    && (s'.live == Normal(s.newest) || s'.live == Compaction(s.newest))
  }

  /** The compaction under way publishes, for a job at its own watermark. */
  ghost predicate Publishes(s: State, s': State, job: Job, cp: Checkpoint) {
    && s.live == Compaction(job.plan.inputSequence) && C.Publishes(s.chain, s'.chain, job, cp)
    && s'.newest == s.newest && s'.live.Idle?
  }

  ghost predicate Step(s: State, s': State) {
    || Works(s, s') || ClaimsNormal(s, s') || HandsOff(s, s') || Ends(s, s') || Resumes(s, s')
    || exists job, cp :: Publishes(s, s', job, cp)
  }

  ghost predicate IsHistory(states: seq<State>) {
    && |states| > 0 && Ordered(states[0].chain.world.log) && states[0].chain.checkpoints == []
    && states[0].newest == 0 && states[0].live.Idle?
    && forall i :: 0 <= i < |states| - 1 ==> StepsAt(states, i)
  }

  ghost predicate StepsAt(states: seq<State>, i: nat)
    requires i + 1 < |states|
  {
    Step(states[i], states[i + 1])
  }

  // ----- what every step keeps -----

  /** A checkpoint is behind the newest call, or was made for it. */
  predicate Settled(cp: Checkpoint, newest: int) {
    cp.eventSequence <= newest || cp.watermark == newest
  }

  ghost predicate AllSettled(checkpoints: seq<Checkpoint>, newest: int) {
    forall i :: 0 <= i < |checkpoints| ==> Settled(checkpoints[i], newest)
  }

  /** The watermark is durable and separates no opening events of a turn. */
  ghost predicate WholeAt(w: World, watermark: int) {
    0 <= watermark <= Last(w.log) && C.WholeTurns(w, watermark)
  }

  ghost predicate Inv(s: State) {
    && C.Invariant(s.chain)
    && WholeAt(s.chain.world, s.newest)
    && (s.live.Idle? || s.live.watermark == s.newest)
    && AllSettled(s.chain.checkpoints, s.newest)
    && C.SeesPredecessor(s.chain.checkpoints)
  }

  lemma WholeAtEnds(w: World)
    requires Ordered(w.log)
    ensures WholeAt(w, 0) && WholeAt(w, Last(w.log))
  {
    OrderedMeans(w.log, |w.log|);
  }

  lemma WholeStays(w: World, w': World, watermark: int)
    requires WholeAt(w, watermark) && Extends(w, w')
    ensures WholeAt(w', watermark)
  {
    PrefixOrdered(w.log, w'.log);
    OpeningCutStable(w, w', watermark, Last(w.log), Last(w'.log));
  }

  /** Claiming at the end of the log leaves every checkpoint's event behind. */
  lemma ClaimSettles(chain: C.State)
    requires C.Invariant(chain)
    ensures AllSettled(chain.checkpoints, Last(chain.world.log))
  {
    forall i | 0 <= i < |chain.checkpoints| ensures Settled(chain.checkpoints[i], Last(chain.world.log)) {
      C.SoundAt(chain.world, chain.checkpoints, i);
    }
  }

  /** A checkpoint made for the newest call, and the first one made for it, sees all before it. */
  lemma AppendSees(checkpoints: seq<Checkpoint>, cp: Checkpoint)
    requires C.SeesPredecessor(checkpoints) && AllSettled(checkpoints, cp.watermark)
    requires Unpublished(checkpoints, cp.watermark, cp.end)
    ensures C.SeesPredecessor(checkpoints + [cp]) && AllSettled(checkpoints + [cp], cp.watermark)
  {
    var all, n := checkpoints + [cp], |checkpoints|;
    forall k | 0 < k < |all| ensures C.SeesAt(all, k) {
      if k < n {
        assert C.SeesAt(checkpoints, k);
        assert all[k] == checkpoints[k] && all[k - 1] == checkpoints[k - 1];
      } else {
        assert Settled(checkpoints[n - 1], cp.watermark);
        assert all[k] == cp && all[k - 1] == checkpoints[n - 1];
      }
    }
  }

  lemma PublishKeeps(s: State, s': State, job: Job, cp: Checkpoint)
    requires Inv(s) && Publishes(s, s', job, cp)
    ensures Inv(s')
  {
    assert s'.chain.checkpoints == s.chain.checkpoints + [cp] && C.Invariant(s'.chain) by {
      C.PublishKeepsInvariant(s.chain, s'.chain, job, cp);
    }
    assert cp.watermark == s.newest && Unpublished(s.chain.checkpoints, cp.watermark, cp.end) by {
      PublishedAt(s, s', job, cp);
    }
    assert WholeAt(s'.chain.world, s'.newest) by {
      C.PublishKeepsInvariant(s.chain, s'.chain, job, cp);
      WholeStays(s.chain.world, s'.chain.world, s.newest);
    }
    AppendSees(s.chain.checkpoints, cp);
  }

  lemma PublishedAt(s: State, s': State, job: Job, cp: Checkpoint)
    requires Inv(s) && Publishes(s, s', job, cp)
    ensures cp.watermark == s.newest && Unpublished(s.chain.checkpoints, cp.watermark, cp.end)
  {
  }

  lemma StepKeeps(s: State, s': State)
    requires Inv(s) && Step(s, s')
    ensures Inv(s')
  {
    if Works(s, s') {
      C.StepKeepsInvariant(s.chain, s'.chain);
      WholeStays(s.chain.world, s'.chain.world, s.newest);
    } else if ClaimsNormal(s, s') {
      WholeAtEnds(s.chain.world);
      ClaimSettles(s.chain);
    } else if job, cp :| Publishes(s, s', job, cp) {
      PublishKeeps(s, s', job, cp);
    }
  }

  lemma {:induction false} EveryStateIsSound(states: seq<State>, n: nat)
    requires IsHistory(states) && n < |states|
    ensures Inv(states[n])
  {
    if n == 0 {
      WholeAtEnds(states[0].chain.world);
    } else {
      EveryStateIsSound(states, n - 1);
      assert StepsAt(states, n - 1);
      StepKeeps(states[n - 1], states[n]);
    }
  }

  /** What the selector offers at the newest call's watermark never ends inside a turn's opening
      events, and is safe with every opening event in view. */
  lemma OfferedAtNewestIsSafe(states: seq<State>, n: nat, plan: Selector.Plan, input: Selector.BoundaryInput)
    requires IsHistory(states) && n < |states| && 0 < plan.start && plan.inputSequence == states[n].newest
    requires C.Offered(states[n].chain.world, plan, input)
    ensures Safe(states[n].chain.world, plan.inputSequence, plan.end)
    ensures !OpeningCut(states[n].chain.world.log, plan.end, Last(states[n].chain.world.log))
  {
    var w := states[n].chain.world;
    EveryStateIsSound(states, n);
    ExtendsReflexive(w);
    C.OfferedIsSafe(w, w, plan, input);
  }

  /** In every state of every history the published ranges tile the log from 1, without gap or
      overlap. */
  lemma CheckpointsTile(states: seq<State>, n: nat)
    requires IsHistory(states) && n < |states|
    ensures C.Tiles(states[n].chain.checkpoints)
  {
    EveryStateIsSound(states, n);
    C.InvariantGivesLineage(states[n].chain);
    C.TilesIff(states[n].chain.checkpoints);
  }

  /** And each summary costs at most the sum of all sources so far, each less its required savings. */
  lemma SummaryCostIsCumulative(states: seq<State>, last: nat, n: nat)
    requires IsHistory(states) && last < |states| && 0 < n <= |states[last].chain.checkpoints|
    ensures var chain := states[last].chain;
      Tokens(chain.checkpoints[n - 1].summary) <= C.NetSources(chain.world, chain.checkpoints, n)
  {
    var chain := states[last].chain;
    EveryStateIsSound(states, last);
    C.CumulativeCost(chain, n);
  }
}
