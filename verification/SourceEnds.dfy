/** Where a checkpoint may end: planner.go's safe source ends and complete-turn ends. */
module SourceEnds {
  import opened Events

  /** Events that must be summarised together or kept together. */
  datatype AtomicGroup = AtomicGroup(kind: string, start: int, end: int)

  /** A boundary after sequence s separates members of the group. */
  predicate Cuts(g: AtomicGroup, s: int) {
    g.start <= s < g.end
  }

  predicate CutByAny(groups: seq<AtomicGroup>, s: int) {
    exists g :: g in groups && Cuts(g, s)
  }

  /** latestModelOutputByTurn[turn]: the sequence of the turn's last model output among the
      evidence, 0 when it has none. */
  function LatestModelOutput(evidence: seq<Event>, turn: TurnId): int {
    if |evidence| == 0 then 0 else
    var e := evidence[|evidence| - 1];
    if e.kind == ModelOutput && e.turn == turn then e.sequence
    else LatestModelOutput(evidence[..|evidence| - 1], turn)
  }

  /** An event at which a model step has settled: an output, a tool result, or an input that
      some later output of its turn answers. */
  predicate EndsSettledStep(e: Event, evidence: seq<Event>) {
    match e.kind
    case ModelOutput => true
    case ToolResult => true
    case AgentInput => LatestModelOutput(evidence, e.turn) > e.sequence
    case _ => false
  }

  predicate IsSafeEnd(e: Event, evidence: seq<Event>, groups: seq<AtomicGroup>) {
    HasModelSemantics(e) && EndsSettledStep(e, evidence) && !CutByAny(groups, e.sequence)
  }

  /** safeCompactionSourceEndsWithWitness, as a filter over the source events. */
  function SafeEnds(events: seq<Event>, evidence: seq<Event>, groups: seq<AtomicGroup>): seq<int> {
    if |events| == 0 then [] else
    var e := events[|events| - 1];
    SafeEnds(events[..|events| - 1], evidence, groups) +
    (if IsSafeEnd(e, evidence, groups) then [e.sequence] else [])
  }

  ghost predicate Ascending(ends: seq<int>) {
    forall i, j :: 0 <= i < j < |ends| ==> ends[i] < ends[j]
  }

  /** The answer to an input is a later output of its turn: with ordered evidence the last
      output decides. */
  ghost predicate AnsweredAfter(evidence: seq<Event>, turn: TurnId, s: int) {
    exists k :: 0 <= k < |evidence| &&
      IsOutputOf(evidence[k], turn) && s < evidence[k].sequence
  }

  predicate IsOutputOf(e: Event, turn: TurnId) {
    e.kind == ModelOutput && e.turn == turn
  }

  lemma {:induction false} LatestModelOutputIsGreatest(evidence: seq<Event>, turn: TurnId)
    requires Ordered(evidence)
    ensures forall k :: 0 <= k < |evidence| && IsOutputOf(evidence[k], turn) ==>
      evidence[k].sequence <= LatestModelOutput(evidence, turn)
    ensures LatestModelOutput(evidence, turn) == 0 ||
      exists k :: 0 <= k < |evidence| && IsOutputOf(evidence[k], turn) &&
                  evidence[k].sequence == LatestModelOutput(evidence, turn)
  {
    if |evidence| > 0 {
      var n := |evidence| - 1;
      var front := evidence[..n];
      FrontOrdered(evidence);
      if IsOutputOf(evidence[n], turn) {
      } else {
        LatestModelOutputIsGreatest(front, turn);
        forall k | 0 <= k < |evidence| && IsOutputOf(evidence[k], turn)
          ensures evidence[k].sequence <= LatestModelOutput(evidence, turn)
        {
          assert evidence[k] == front[k];
        }
        if LatestModelOutput(front, turn) != 0 {
          var k :| 0 <= k < |front| && IsOutputOf(front[k], turn) && front[k].sequence == LatestModelOutput(front, turn);
          assert evidence[k] == front[k];
        }
      }
    }
  }

  lemma LatestModelOutputMeans(evidence: seq<Event>, turn: TurnId, s: int)
    requires Ordered(evidence) && 0 <= s
    ensures LatestModelOutput(evidence, turn) > s <==> AnsweredAfter(evidence, turn, s)
  {
    LatestModelOutputIsGreatest(evidence, turn);
  }

  /** Membership: exactly the sequences of the events that are safe ends. */
  lemma {:induction false} SafeEndsMembers(events: seq<Event>, evidence: seq<Event>, groups: seq<AtomicGroup>, s: int)
    ensures s in SafeEnds(events, evidence, groups) <==>
      exists i :: 0 <= i < |events| && events[i].sequence == s && IsSafeEnd(events[i], evidence, groups)
  {
    if |events| > 0 {
      var n := |events| - 1;
      var front := events[..n];
      SafeEndsMembers(front, evidence, groups, s);
      assert forall i :: 0 <= i < n ==> front[i] == events[i];
      if s in SafeEnds(front, evidence, groups) {
        var i :| 0 <= i < |front| && front[i].sequence == s && IsSafeEnd(front[i], evidence, groups);
        assert events[i] == front[i];
      }
    }
  }

  lemma {:induction false} SafeEndsAscending(events: seq<Event>, evidence: seq<Event>, groups: seq<AtomicGroup>)
    requires Ordered(events)
    ensures Ascending(SafeEnds(events, evidence, groups))
    ensures forall s :: s in SafeEnds(events, evidence, groups) ==> 0 < s <= Last(events)
  {
    if |events| > 0 {
      FrontOrdered(events);
      SafeEndsAscending(events[..|events| - 1], evidence, groups);
      var ends := SafeEnds(events[..|events| - 1], evidence, groups);
      assert forall i :: 0 <= i < |ends| ==> ends[i] in ends;
    }
  }

  /** Two views that agree on which events are safe have the same safe ends. */
  lemma {:induction false} SafeEndsCongruence(
    events: seq<Event>, w: seq<Event>, w': seq<Event>, g: seq<AtomicGroup>, g': seq<AtomicGroup>)
    requires forall i :: 0 <= i < |events| ==> IsSafeEnd(events[i], w, g) == IsSafeEnd(events[i], w', g')
    ensures SafeEnds(events, w, g) == SafeEnds(events, w', g')
  {
    if |events| > 0 {
      var n := |events| - 1;
      assert forall i :: 0 <= i < n ==> events[..n][i] == events[i];
      SafeEndsCongruence(events[..n], w, w', g, g');
    }
  }

  // ----- the loops -----

  function Lookup(m: map<TurnId, int>, turn: TurnId): int {
    if turn in m then m[turn] else 0
  }

  method LatestModelOutputByTurn(evidence: seq<Event>) returns (latest: map<TurnId, int>)
    ensures forall turn: TurnId :: Lookup(latest, turn) == LatestModelOutput(evidence, turn)
  {
    latest := map[];
    for i := 0 to |evidence|
      invariant forall turn: TurnId :: Lookup(latest, turn) == LatestModelOutput(evidence[..i], turn)
    {
      assert evidence[..i + 1][..i] == evidence[..i];
      if evidence[i].kind == ModelOutput {
        latest := latest[evidence[i].turn := evidence[i].sequence];
      }
    }
    assert evidence[..|evidence|] == evidence;
  }

  /** safeCompactionSourceEndsWithWitness: one pass over the witness, one over the source. */
  method SafeCompactionSourceEnds(events: seq<Event>, evidence: seq<Event>, groups: seq<AtomicGroup>)
    returns (ends: seq<int>)
    ensures ends == SafeEnds(events, evidence, groups)
  {
    var latest := LatestModelOutputByTurn(evidence);
    ends := [];
    for i := 0 to |events|
      invariant ends == SafeEnds(events[..i], evidence, groups)
    {
      assert events[..i + 1][..i] == events[..i];
      var e := events[i];
      var settled := e.kind == ModelOutput || e.kind == ToolResult ||
        (e.kind == AgentInput && Lookup(latest, e.turn) > e.sequence);
      if HasModelSemantics(e) && settled {
        var safe := true;
        var k := 0;
        while k < |groups| && safe
          invariant 0 <= k <= |groups|
          invariant safe <==> !CutByAny(groups[..k], e.sequence)
        {
          assert forall g :: g in groups[..k + 1] <==> g in groups[..k] || g == groups[k];
          if Cuts(groups[k], e.sequence) {
            safe := false;
          }
          k := k + 1;
        }
        assert safe <==> !CutByAny(groups, e.sequence) by { assert safe ==> groups[..k] == groups; }
        if safe {
          ends := ends + [e.sequence];
        }
      }
    }
    assert events[..|events|] == events;
  }

  // ----- complete turns -----

  /** latestSequenceByTurn[turn]: the last event of the turn other than a checkpoint. */
  function LatestInTurn(evidence: seq<Event>, turn: TurnId): int {
    if |evidence| == 0 then 0 else
    var e := evidence[|evidence| - 1];
    if e.kind != ContextCheckpoint && e.turn != NIL_TURN && e.turn == turn then e.sequence
    else LatestInTurn(evidence[..|evidence| - 1], turn)
  }

  /** eventBySequence[s]: the last event with that sequence. */
  function EventAt(events: seq<Event>, s: int): Option<Event> {
    if |events| == 0 then None
    else if events[|events| - 1].sequence == s then Some(events[|events| - 1])
    else EventAt(events[..|events| - 1], s)
  }

  /** The candidate is a model output and the last thing that happened in its turn. */
  predicate EndsTurn(events: seq<Event>, evidence: seq<Event>, candidate: int) {
    var e := EventAt(events, candidate);
    e.Some? && e.value.kind == ModelOutput && e.value.turn != NIL_TURN &&
    LatestInTurn(evidence, e.value.turn) == candidate
  }

  /** completeTurnSourceEnds */
  function CompleteTurnEnds(events: seq<Event>, evidence: seq<Event>, candidates: seq<int>): seq<int> {
    if |candidates| == 0 then [] else
    var n := |candidates| - 1;
    CompleteTurnEnds(events, evidence, candidates[..n]) +
    (if EndsTurn(events, evidence, candidates[n]) then [candidates[n]] else [])
  }

  lemma {:induction false} CompleteTurnEndsMembers(events: seq<Event>, evidence: seq<Event>, candidates: seq<int>)
    ensures forall s :: s in CompleteTurnEnds(events, evidence, candidates) <==>
      s in candidates && EndsTurn(events, evidence, s)
    ensures Ascending(candidates) ==> Ascending(CompleteTurnEnds(events, evidence, candidates))
  {
    if |candidates| > 0 {
      var n := |candidates| - 1;
      CompleteTurnEndsMembers(events, evidence, candidates[..n]);
      assert candidates == candidates[..n] + [candidates[n]];
      if Ascending(candidates) {
        assert Ascending(candidates[..n]);
        AscendingAppend(CompleteTurnEnds(events, evidence, candidates[..n]), candidates);
      }
    }
  }

  lemma AscendingAppend(front: seq<int>, candidates: seq<int>)
    requires |candidates| > 0 && Ascending(candidates) && Ascending(front)
    requires forall s :: s in front ==> s in candidates[..|candidates| - 1]
    ensures Ascending(front + [candidates[|candidates| - 1]])
  {
    var n := |candidates| - 1;
    forall i | 0 <= i < |front| ensures front[i] < candidates[n] {
      var s := front[i];
      assert s in front;
      var j :| 0 <= j < n && candidates[..n][j] == s;
      assert candidates[j] == s;
    }
  }

  method CompleteTurnSourceEnds(events: seq<Event>, evidence: seq<Event>, candidates: seq<int>)
    returns (ends: seq<int>)
    ensures ends == CompleteTurnEnds(events, evidence, candidates)
  {
    var latest: map<TurnId, int> := map[];
    for i := 0 to |evidence|
      invariant forall turn: TurnId :: Lookup(latest, turn) == LatestInTurn(evidence[..i], turn)
    {
      assert evidence[..i + 1][..i] == evidence[..i];
      if evidence[i].kind != ContextCheckpoint && evidence[i].turn != NIL_TURN {
        latest := latest[evidence[i].turn := evidence[i].sequence];
      }
    }
    assert evidence[..|evidence|] == evidence;
    var bySequence: map<int, Event> := map[];
    for i := 0 to |events|
      invariant forall s :: EventAt(events[..i], s) == if s in bySequence then Some(bySequence[s]) else None
    {
      assert events[..i + 1][..i] == events[..i];
      bySequence := bySequence[events[i].sequence := events[i]];
    }
    assert events[..|events|] == events;
    ends := [];
    for i := 0 to |candidates|
      invariant ends == CompleteTurnEnds(events, evidence, candidates[..i])
    {
      assert candidates[..i + 1][..i] == candidates[..i];
      var c := candidates[i];
      if c in bySequence && bySequence[c].kind == ModelOutput && bySequence[c].turn != NIL_TURN &&
         Lookup(latest, bySequence[c].turn) == c {
        ends := ends + [c];
      }
    }
    assert candidates[..|candidates|] == candidates;
  }

  // ----- boundaries around a target -----

  /** Length of the leading run of candidates before the target. */
  ghost function Lead(candidates: seq<int>, before: int -> bool): (k: nat)
    ensures k <= |candidates|
    ensures forall i :: 0 <= i < k ==> before(candidates[i])
    ensures k < |candidates| ==> !before(candidates[k])
  {
    if |candidates| == 0 || !before(candidates[0]) then 0
    else 1 + Lead(candidates[1..], before)
  }

  ghost function LastBefore(candidates: seq<int>, before: int -> bool): int
  {
    var k := Lead(candidates, before);
    if k == 0 then 0 else candidates[k - 1]
  }

  ghost function FirstPast(candidates: seq<int>, before: int -> bool): int
  {
    var k := Lead(candidates, before);
    if k == |candidates| then 0 else candidates[k]
  }

  lemma {:induction false} LeadUnique(candidates: seq<int>, before: int -> bool, k: nat)
    requires k <= |candidates|
    requires forall i :: 0 <= i < k ==> before(candidates[i])
    requires k < |candidates| ==> !before(candidates[k])
    ensures Lead(candidates, before) == k
  {
    if k > 0 {
      LeadUnique(candidates[1..], before, k - 1);
    }
  }

  /** boundariesAroundTarget */
  method BoundariesAroundTarget(candidates: seq<int>, beforeTarget: int -> bool)
    returns (before: int, after: int)
    ensures before == LastBefore(candidates, beforeTarget)
    ensures after == FirstPast(candidates, beforeTarget)
  {
    before, after := 0, 0;
    var i := 0;
    while i < |candidates| && beforeTarget(candidates[i])
      invariant 0 <= i <= |candidates|
      invariant forall j :: 0 <= j < i ==> beforeTarget(candidates[j])
      invariant before == if i == 0 then 0 else candidates[i - 1]
    {
      before := candidates[i];
      i := i + 1;
    }
    LeadUnique(candidates, beforeTarget, i);
    if i < |candidates| {
      after := candidates[i];
    }
  }
}
