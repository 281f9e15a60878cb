/** Picking the source of one summary request (internal/compaction/runner_candidate.go): the
    largest prefix that fits the model window, and the next smaller prefix after a failure. */
module Candidates {
  import opened Events
  import opened SourceEnds

  // ----- lazily loaded evidence -----

  /** compactionSourceNeedsLaterModelWitness: some visible input is not answered in the source. */
  ghost predicate NeedsLaterEvidence(source: seq<Event>) {
    exists i :: 0 <= i < |source| && UnansweredInput(source[i], source)
  }

  predicate UnansweredInput(e: Event, evidence: seq<Event>) {
    e.kind == AgentInput && HasModelSemantics(e) && LatestModelOutput(evidence, e.turn) <= e.sequence
  }

  method SourceNeedsLaterEvidence(source: seq<Event>) returns (needs: bool)
    ensures needs == NeedsLaterEvidence(source)
  {
    var latest := LatestModelOutputByTurn(source);
    for i := 0 to |source|
      invariant forall j :: 0 <= j < i ==> !UnansweredInput(source[j], source)
    {
      var e := source[i];
      if e.kind == AgentInput && HasModelSemantics(e) && Lookup(latest, e.turn) <= e.sequence {
        assert UnansweredInput(e, source);
        return true;
      }
    }
    return false;
  }

  /** Lazy loading refines eager loading: when the source answers its own inputs, evidence past
      its end changes no safe end. */
  lemma LazyEvidenceRefinesEager(source: seq<Event>, evidence: seq<Event>, groups: seq<AtomicGroup>)
    requires Ordered(evidence) && source <= evidence && !NeedsLaterEvidence(source)
    ensures SafeEnds(source, source, groups) == SafeEnds(source, evidence, groups)
  {
    PrefixOrdered(source, evidence);
    forall i | 0 <= i < |source|
      ensures IsSafeEnd(source[i], source, groups) == IsSafeEnd(source[i], evidence, groups)
    {
      var e := source[i];
      if e.kind == AgentInput && HasModelSemantics(e) {
        assert !UnansweredInput(e, source);
        Sequences(source, i, i);
        LatestModelOutputMeans(source, e.turn, e.sequence);
        LatestModelOutputMeans(evidence, e.turn, e.sequence);
        var k :| 0 <= k < |source| && IsOutputOf(source[k], e.turn) && e.sequence < source[k].sequence;
        assert evidence[k] == source[k];
      }
    }
    SafeEndsCongruence(source, source, evidence, groups, groups);
  }

  lemma {:induction false} LatestInTurnIsGreatest(evidence: seq<Event>, turn: TurnId)
    requires Ordered(evidence) && turn != NIL_TURN
    ensures forall k :: 0 <= k < |evidence| && evidence[k].kind != ContextCheckpoint && evidence[k].turn == turn ==>
      evidence[k].sequence <= LatestInTurn(evidence, turn)
  {
    if |evidence| > 0 {
      var n := |evidence| - 1;
      FrontOrdered(evidence);
      LatestInTurnIsGreatest(evidence[..n], turn);
      assert forall k :: 0 <= k < n ==> evidence[..n][k] == evidence[k];
    }
  }

  predicate ClosesAt(e: Event, turn: TurnId, s: int) {
    e.kind != ContextCheckpoint && e.turn == turn && e.sequence == s
  }

  lemma {:induction false} LatestInTurnIsMember(evidence: seq<Event>, turn: TurnId)
    requires LatestInTurn(evidence, turn) != 0
    ensures exists k :: 0 <= k < |evidence| && ClosesAt(evidence[k], turn, LatestInTurn(evidence, turn))
  {
    var n := |evidence| - 1;
    var e := evidence[n];
    if !(e.kind != ContextCheckpoint && e.turn != NIL_TURN && e.turn == turn) {
      LatestInTurnIsMember(evidence[..n], turn);
      var k :| 0 <= k < n && ClosesAt(evidence[..n][k], turn, LatestInTurn(evidence[..n], turn));
      assert evidence[k] == evidence[..n][k];
    }
  }

  lemma {:induction false} EventAtIsMember(events: seq<Event>, s: int)
    requires EventAt(events, s).Some?
    ensures exists i :: 0 <= i < |events| && events[i] == EventAt(events, s).value && events[i].sequence == s
  {
    var n := |events| - 1;
    if events[n].sequence != s {
      EventAtIsMember(events[..n], s);
      var i :| 0 <= i < n && events[..n][i] == EventAt(events[..n], s).value && events[..n][i].sequence == s;
      assert events[i] == events[..n][i];
    }
  }

  /** For complete turns the lazy answer is only an over-approximation: what ends a turn with
      all evidence in view also ends it in the source alone. */
  lemma LazyTurnEndsAreSuperset(source: seq<Event>, evidence: seq<Event>, end: int)
    requires Ordered(evidence) && source <= evidence && EndsTurn(source, evidence, end)
    ensures EndsTurn(source, source, end)
  {
    PrefixOrdered(source, evidence);
    EventAtIsMember(source, end);
    var i :| 0 <= i < |source| && source[i] == EventAt(source, end).value && source[i].sequence == end;
    var turn := source[i].turn;
    LatestInTurnIsGreatest(source, turn);
    LatestInTurnIsGreatest(evidence, turn);
    Sequences(source, i, i);
    LatestInTurnIsMember(source, turn);
    var k :| 0 <= k < |source| && ClosesAt(source[k], turn, LatestInTurn(source, turn));
    assert evidence[k] == source[k];
  }

  /** ... and a proper one: an output that closes the source need not close its turn. */
  lemma LazyTurnEndsAreNotExact()
    ensures exists source: seq<Event>, evidence: seq<Event>, end: int ::
      Ordered(evidence) && source <= evidence && !NeedsLaterEvidence(source) &&
      EndsTurn(source, source, end) && !EndsTurn(source, evidence, end)
  {
    var output := Event(1, 7, false, ModelOutput, "", "", "", Content(2, Some(1)), Some("a"));
    var later := output.(sequence := 2, kind := ToolResult);
    var source, evidence := [output], [output, later];
    assert evidence[..1] == source;
    assert EventAt(source, 1) == Some(output);
    assert LatestInTurn(evidence, 7) == 2;
    assert LatestInTurn(source, 7) == 1;
    assert OrderedTo(evidence, 1);
    assert EndsTurn(source, source, 1) && !EndsTurn(source, evidence, 1);
  }

  /** A complete turn ends at s exactly when a model output of some turn is there and everything else
      of that turn, checkpoints apart, comes before it. */
  lemma EndsTurnMeans(events: seq<Event>, evidence: seq<Event>, s: int)
    requires Ordered(events) && Ordered(evidence) && events <= evidence
    ensures EndsTurn(events, evidence, s) <==>
      exists e :: e in events && e.sequence == s && e.kind == ModelOutput && e.turn != NIL_TURN && LastOfTurn(evidence, e.turn, s)
  {
    if e :| e in events && e.sequence == s && e.kind == ModelOutput && e.turn != NIL_TURN && LastOfTurn(evidence, e.turn, s) {
      EventAtIs(events, e);
      LastOfTurnIs(events, evidence, e);
    }
    if EndsTurn(events, evidence, s) {
      EventAtIsMember(events, s);
      var e := EventAt(events, s).value;
      LastOfTurnIs(events, evidence, e);
    }
  }

  /** No event of the turn other than a checkpoint comes after s. */
  ghost predicate LastOfTurn(evidence: seq<Event>, turn: TurnId, s: int) {
    forall x :: x in evidence && x.turn == turn && x.kind != ContextCheckpoint ==> x.sequence <= s
  }

  lemma {:induction false} EventAtIs(events: seq<Event>, e: Event)
    requires Ordered(events) && e in events
    ensures EventAt(events, e.sequence) == Some(e)
  {
    var n := |events| - 1;
    if events[n] != e {
      FrontOrdered(events);
      assert events == events[..n] + [events[n]];
      assert e in events[..n];
      var i :| 0 <= i < n && events[..n][i] == e;
      assert events[i].sequence < events[n].sequence;
      EventAtIs(events[..n], e);
    }
  }

  lemma LastOfTurnIs(events: seq<Event>, evidence: seq<Event>, e: Event)
    requires Ordered(evidence) && events <= evidence && e in events && e.kind != ContextCheckpoint && e.turn != NIL_TURN
    ensures LatestInTurn(evidence, e.turn) == e.sequence <==> LastOfTurn(evidence, e.turn, e.sequence)
  {
    var i :| 0 <= i < |events| && events[i] == e;
    assert evidence[i] == e;
    OrderedMeans(evidence, |evidence|);
    LatestInTurnIsGreatest(evidence, e.turn);
    if LatestInTurn(evidence, e.turn) != e.sequence {
      LatestInTurnIsMember(evidence, e.turn);
      var k :| 0 <= k < |evidence| && ClosesAt(evidence[k], e.turn, LatestInTurn(evidence, e.turn));
      assert evidence[k] in evidence;
    }
  }

  // ----- the largest request that fits -----

  /** The summary model: the tokens of its window after the safety margin, its minimum output
      allowance, and the estimated input tokens of a request over a rendered source with a given
      output allowance (None when the request cannot be prepared). */
  datatype Client = Client(room: int, minimum: nat, estimate: (string, int) -> Option<int>)

  function Max(a: int, b: int): int { if a < b then b else a }

  /** UsableInputTokens with the whole output allowance reserved. */
  function Usable(client: Client, output: int): int {
    Max(0, client.room - output)
  }

  /** InputBudgetAssessment.Fits; OverBudget is its negation. */
  predicate FitsBudget(client: Client, estimated: int, output: int) {
    0 < estimated <= Usable(client, output)
  }

  /** An estimate fits exactly when it is positive and leaves the whole output allowance in the window. */
  lemma FitsMeans(client: Client, estimated: int, output: int)
    ensures FitsBudget(client, estimated, output) <==> 0 < estimated && estimated + output <= client.room
  {
  }

  datatype Source = Source(start: int, events: seq<Event>, client: Client, output: int)

  /** prepareCandidate: the estimate for a source that ends at `end`. */
  function Prepare(s: Source, end: int, output: int): Option<int> {
    var count := end - s.start + 1;
    if count <= 0 || count > |s.events| then None else
    var text := Render(s.events[..count]);
    if text.None? then None else s.client.estimate(text.value, output)
  }

  /** The candidate fits with the full output allowance. */
  predicate FitsFully(s: Source, end: int) {
    var e := Prepare(s, end, s.output);
    e.Some? && FitsBudget(s.client, e.value, s.output)
  }

  datatype Request = Request(end: int, output: int)
  datatype FitResult = NoRequest | Chosen(request: Request) | PrepareFailed

  /** The output allowance that would make room for an over-budget estimate. */
  function TrimmedOutput(s: Source, estimated: int): int {
    s.output - (estimated - Usable(s.client, s.output))
  }

  /** What the second pass does with one target: take it as it is, or with a trimmed output
      allowance of at least the client's minimum. */
  function TryTarget(s: Source, end: int): FitResult {
    var e := Prepare(s, end, s.output);
    if e.None? then PrepareFailed
    else if FitsBudget(s.client, e.value, s.output) then Chosen(Request(end, s.output))
    else
      var output := TrimmedOutput(s, e.value);
      if output < Max(1, s.client.minimum) then NoRequest
      else
        var e' := Prepare(s, end, output);
        if e'.None? then PrepareFailed
        else if FitsBudget(s.client, e'.value, output) then Chosen(Request(end, output))
        else NoRequest
  }

  /** The second pass: the first target past the best request that can be made to fit. */
  function TryTargets(s: Source, targets: seq<int>, best: FitResult, bestEnd: int): FitResult {
    if |targets| == 0 then best
    else if targets[0] <= bestEnd then TryTargets(s, targets[1..], best, bestEnd)
    else
      var r := TryTarget(s, targets[0]);
      if r.NoRequest? then TryTargets(s, targets[1..], best, bestEnd) else r
  }

  /** The smallest complete turn first, then the smallest safe end. */
  function Targets(candidates: seq<int>, turns: seq<int>): seq<int>
    requires |candidates| > 0
  {
    if |turns| > 0 && turns[0] != candidates[0] then [turns[0], candidates[0]] else [candidates[0]]
  }

  /** Where the binary search may stop: the candidate before position k fits, the one at k
      does not. */
  ghost predicate Frontier(s: Source, candidates: seq<int>, k: nat) {
    && k <= |candidates|
    && (0 < k ==> FitsFully(s, candidates[k - 1]))
    && (k < |candidates| ==> !FitsFully(s, candidates[k]))
  }

  function BestAt(s: Source, candidates: seq<int>, k: nat): FitResult
    requires k <= |candidates|
  {
    if k == 0 then NoRequest else Chosen(Request(candidates[k - 1], s.output))
  }

  function EndAt(candidates: seq<int>, k: nat): int
    requires k <= |candidates|
  {
    if k == 0 then 0 else candidates[k - 1]
  }

  /** The binary search of largestFittingCompactionRequest; position k is its answer. */
  method SearchLargest(s: Source, candidates: seq<int>) returns (ok: bool, k: nat)
    ensures ok ==> Frontier(s, candidates, k)
    ensures !ok ==> exists c :: c in candidates && Prepare(s, c, s.output).None?
  {
    var low, high := 0, |candidates| - 1;
    while low <= high
      invariant 0 <= low <= high + 1 <= |candidates|
      invariant 0 < low ==> FitsFully(s, candidates[low - 1])
      invariant high + 1 < |candidates| ==> !FitsFully(s, candidates[high + 1])
      decreases high - low
    {
      var mid := low + (high - low) / 2;
      var prepared := Prepare(s, candidates[mid], s.output);
      if prepared.None? {
        assert candidates[mid] in candidates;
        return false, 0;
      }
      if !FitsBudget(s.client, prepared.value, s.output) {
        high := mid - 1;
      } else {
        low := mid + 1;
      }
    }
    return true, low;
  }

  /** r is what the second pass makes of the binary search's answer k. */
  ghost predicate Decides(s: Source, candidates: seq<int>, turns: seq<int>, k: nat, r: FitResult)
    requires |candidates| > 0
  {
    Frontier(s, candidates, k) &&
    r == TryTargets(s, Targets(candidates, turns), BestAt(s, candidates, k), EndAt(candidates, k))
  }

  /** The request for a source that ends at `end` cannot be prepared, with the full output
      allowance or with the trimmed one. */
  predicate Unpreparable(s: Source, end: int) {
    var e := Prepare(s, end, s.output);
    e.None? || Prepare(s, end, TrimmedOutput(s, e.value)).None?
  }

  /** largestFittingCompactionRequest, after its candidates are known. */
  method LargestFittingRequest(s: Source, candidates: seq<int>, turns: seq<int>) returns (r: FitResult)
    ensures |candidates| == 0 ==> r.NoRequest?
    ensures |candidates| > 0 && !r.PrepareFailed? ==> exists k :: Decides(s, candidates, turns, k, r)
    ensures r.PrepareFailed? ==> exists c :: (c in candidates || c in turns) && Unpreparable(s, c)
  {
    if |candidates| == 0 {
      return NoRequest;
    }
    var ok, k := SearchLargest(s, candidates);
    if !ok {
      var c :| c in candidates && Prepare(s, c, s.output).None?;
      assert Unpreparable(s, c);
      return PrepareFailed;
    }
    var bestEnd := EndAt(candidates, k);
    var targets := Targets(candidates, turns);
    assert Frontier(s, candidates, k);
    ghost var answer := TryTargets(s, targets, BestAt(s, candidates, k), bestEnd);
    for i := 0 to |targets|
      invariant answer == TryTargets(s, targets[i..], BestAt(s, candidates, k), bestEnd)
    {
      assert targets[i..][1..] == targets[i + 1..];
      var end := targets[i];
      if end <= bestEnd {
        continue;
      }
      assert end in candidates || end in turns;
      var prepared := Prepare(s, end, s.output);
      if prepared.None? {
        assert Unpreparable(s, end);
        return PrepareFailed;
      }
      var output := s.output;
      if !FitsBudget(s.client, prepared.value, s.output) {
        output := s.output - (prepared.value - Usable(s.client, s.output));
        if output < Max(1, s.client.minimum) {
          continue;
        }
        prepared := Prepare(s, end, output);
        if prepared.None? {
          assert Unpreparable(s, end);
          return PrepareFailed;
        }
      }
      if FitsBudget(s.client, prepared.value, output) {
        assert Decides(s, candidates, turns, k, Chosen(Request(end, output)));
        return Chosen(Request(end, output));
      }
    }
    assert Decides(s, candidates, turns, k, BestAt(s, candidates, k));
    return BestAt(s, candidates, k);
  }

  /** A chosen request ends at one of the candidates (or complete turns among them) and fits
      with its own output allowance, whatever the estimates are. */
  lemma {:induction false} TargetsFit(s: Source, targets: seq<int>, candidates: seq<int>, best: FitResult, bestEnd: int)
    requires forall t :: t in targets ==> t in candidates
    requires best.Chosen? ==> best.request.end in candidates && best.request.end == bestEnd && RequestFits(s, best.request)
    ensures var r := TryTargets(s, targets, best, bestEnd);
      r.Chosen? ==> r.request.end in candidates && bestEnd <= r.request.end && RequestFits(s, r.request)
  {
    if |targets| > 0 {
      assert forall t :: t in targets[1..] ==> t in targets;
      TargetsFit(s, targets[1..], candidates, best, bestEnd);
    }
  }

  predicate RequestFits(s: Source, request: Request) {
    var e := Prepare(s, request.end, request.output);
    e.Some? && FitsBudget(s.client, e.value, request.output)
  }

  /** Estimates are positive and grow with the prefix. */
  ghost predicate GrowingEstimate(s: Source, candidates: seq<int>) {
    forall i, j :: 0 <= i <= j < |candidates| && Prepare(s, candidates[j], s.output).Some? ==>
      EstimateUpTo(s, candidates[i], Prepare(s, candidates[j], s.output).value)
  }

  predicate EstimateUpTo(s: Source, end: int, most: int) {
    var e := Prepare(s, end, s.output);
    e.Some? && 0 < e.value <= most
  }

  /** Then what fits is an initial part of the candidates. */
  lemma FitsAreInitial(s: Source, candidates: seq<int>, i: nat, j: nat)
    requires GrowingEstimate(s, candidates) && i <= j < |candidates| && FitsFully(s, candidates[j])
    ensures FitsFully(s, candidates[i])
  {
    assert EstimateUpTo(s, candidates[i], Prepare(s, candidates[j], s.output).value);
  }

  /** The request is the largest: under a growing estimate every candidate that fits with the full
      output allowance ends no later than the chosen one, and without a chosen one none fits. */
  lemma LargestRequest(s: Source, candidates: seq<int>, turns: seq<int>, k: nat, r: FitResult)
    requires |candidates| > 0 && Ascending(candidates) && GrowingEstimate(s, candidates)
    requires forall c :: c in candidates ==> 0 < c
    requires forall t :: t in turns ==> t in candidates
    requires Decides(s, candidates, turns, k, r)
    ensures r.Chosen? ==> r.request.end in candidates && RequestFits(s, r.request)
    ensures r.Chosen? ==> forall i :: 0 <= i < |candidates| && FitsFully(s, candidates[i]) ==> candidates[i] <= r.request.end
    ensures r.NoRequest? ==> k == 0 && TryTarget(s, candidates[0]).NoRequest?
    ensures r.NoRequest? ==> forall i :: 0 <= i < |candidates| ==> !FitsFully(s, candidates[i])
  {
    var targets := Targets(candidates, turns);
    assert |turns| > 0 ==> turns[0] in turns;
    TargetsFit(s, targets, candidates, BestAt(s, candidates, k), EndAt(candidates, k));
    forall i | 0 <= i < |candidates| && FitsFully(s, candidates[i])
      ensures 0 < k && candidates[i] <= EndAt(candidates, k)
    {
      if k <= i { FitsAreInitial(s, candidates, k, i); }
    }
    if r.NoRequest? {
      assert candidates[0] in candidates;
      NothingMeansFirstFails(s, candidates, turns, k);
    }
  }

  lemma NothingMeansFirstFails(s: Source, candidates: seq<int>, turns: seq<int>, k: nat)
    requires |candidates| > 0 && k <= |candidates| && 0 < candidates[0]
    requires TryTargets(s, Targets(candidates, turns), BestAt(s, candidates, k), EndAt(candidates, k)).NoRequest?
    ensures k == 0 && TryTarget(s, candidates[0]).NoRequest?
  {
    var targets, best, bestEnd := Targets(candidates, turns), BestAt(s, candidates, k), EndAt(candidates, k);
    if |targets| == 2 {
      assert targets[1..] == [candidates[0]];
      TryFirst(s, targets, best, bestEnd);
    }
    TryFirst(s, [candidates[0]], best, bestEnd);
    assert [candidates[0]][1..] == [];
    assert TryTargets(s, [], best, bestEnd) == best;
  }

  /** A pass that finds nothing has found nothing at its first target, nor after it. */
  lemma TryFirst(s: Source, targets: seq<int>, best: FitResult, bestEnd: int)
    requires |targets| > 0 && TryTargets(s, targets, best, bestEnd).NoRequest?
    ensures TryTargets(s, targets[1..], best, bestEnd).NoRequest?
    ensures targets[0] <= bestEnd || TryTarget(s, targets[0]).NoRequest?
  {
  }

  /** The estimate does not depend on the output allowance. */
  ghost predicate OutputFree(s: Source, end: int) {
    forall output :: Prepare(s, end, output) == Prepare(s, end, s.output)
  }

  /** The target is taken at full allowance, or its input leaves room for the client's minimum output
      and the allowance itself fits the window. With an allowance beyond the window the usable input
      is clamped at 0 and trimming never succeeds. */
  predicate LeavesRoom(s: Source, end: int) {
    var e := Prepare(s, end, s.output);
    e.Some? && 0 < e.value <= s.client.room - Max(1, s.client.minimum) && s.output <= s.client.room
  }

  /** The largest output allowance, up to the wanted one, that the target leaves room for. */
  function RoomFor(s: Source, end: int): int
    requires Prepare(s, end, s.output).Some?
  {
    Min(s.output, s.client.room - Prepare(s, end, s.output).value)
  }

  /** Trimming the output is exact: a target is taken exactly when it fits at full allowance or its
      input leaves room for the client's minimum output, and then with the largest allowance that
      fits. */
  lemma TrimmingIsExact(s: Source, end: int)
    requires Prepare(s, end, s.output).Some? && OutputFree(s, end)
    ensures TryTarget(s, end) ==
      if FitsFully(s, end) || LeavesRoom(s, end) then Chosen(Request(end, RoomFor(s, end))) else NoRequest
    ensures FitsFully(s, end) || LeavesRoom(s, end) ==>
      RequestFits(s, Request(end, RoomFor(s, end))) &&
      forall output :: output <= s.output && RequestFits(s, Request(end, output)) ==> output <= RoomFor(s, end)
  {
    var output := TrimmedOutput(s, Prepare(s, end, s.output).value);
    assert Prepare(s, end, output) == Prepare(s, end, s.output);
    assert Prepare(s, end, RoomFor(s, end)) == Prepare(s, end, s.output);
    forall output | output <= s.output && RequestFits(s, Request(end, output)) ensures output <= RoomFor(s, end) {
      assert Prepare(s, end, output) == Prepare(s, end, s.output);
    }
  }

  /** The second pass takes the target: it lies past what the search found and leaves room. */
  predicate Improves(s: Source, end: int, found: int) {
    found < end && (FitsFully(s, end) || LeavesRoom(s, end))
  }

  /** The answer, when estimates ignore the output allowance: the smallest complete turn, else the
      smallest safe end, if it lies past what fits at full allowance and leaves room for the client's
      minimum output, with all the output that fits; else the end found at full allowance; else none. */
  lemma SecondPassMeans(s: Source, candidates: seq<int>, turns: seq<int>, k: nat, r: FitResult)
    requires |candidates| > 0 && Decides(s, candidates, turns, k, r)
    requires Prepare(s, candidates[0], s.output).Some? && OutputFree(s, candidates[0])
    requires |turns| > 0 ==> Prepare(s, turns[0], s.output).Some? && OutputFree(s, turns[0])
    ensures r ==
      var found := if k == 0 then 0 else candidates[k - 1];
      if |turns| > 0 && Improves(s, turns[0], found) then Chosen(Request(turns[0], RoomFor(s, turns[0])))
      else if Improves(s, candidates[0], found) then Chosen(Request(candidates[0], RoomFor(s, candidates[0])))
      else if k > 0 then Chosen(Request(found, s.output))
      else NoRequest
  {
    var best, bestEnd := BestAt(s, candidates, k), EndAt(candidates, k);
    TrimmingIsExact(s, candidates[0]);
    assert [candidates[0]][1..] == [];
    assert TryTargets(s, [], best, bestEnd) == best;
    assert TryTargets(s, [candidates[0]], best, bestEnd) ==
      if Improves(s, candidates[0], bestEnd) then Chosen(Request(candidates[0], RoomFor(s, candidates[0]))) else best;
    if |turns| > 0 {
      TrimmingIsExact(s, turns[0]);
      assert [turns[0], candidates[0]][1..] == [candidates[0]];
    }
  }

  /** When nothing fits at full allowance, the request ends at the smallest complete turn if that one
      leaves room, else at the smallest safe end if that one does, and there is none otherwise. */
  lemma NothingFitsFully(s: Source, candidates: seq<int>, turns: seq<int>, k: nat, r: FitResult)
    requires |candidates| > 0 && Decides(s, candidates, turns, k, r)
    requires forall c :: c in candidates || c in turns ==>
      0 < c && Prepare(s, c, s.output).Some? && OutputFree(s, c) && !FitsFully(s, c)
    ensures r ==
      if |turns| > 0 && LeavesRoom(s, turns[0]) then
        Chosen(Request(turns[0], s.client.room - Prepare(s, turns[0], s.output).value))
      else if LeavesRoom(s, candidates[0]) then
        Chosen(Request(candidates[0], s.client.room - Prepare(s, candidates[0], s.output).value))
      else NoRequest
  {
    assert candidates[0] in candidates && (|turns| > 0 ==> turns[0] in turns);
    SecondPassMeans(s, candidates, turns, k, r);
  }

  /** compactionModel's allowance is the largest within the preferred size, half the window and the
      normal allowance if there is one; it always leaves the default safety margin. */
  lemma SummaryAllowanceFits(context: nat, normal: int)
    ensures SummaryAllowance(context, normal) <= context - SafetyMargin(context)
    ensures forall x: int :: x <= SummaryAllowance(context, normal) <==>
      x <= 16384 && 2 * x <= context && (normal > 0 ==> x <= normal)
  {
  }

  const PREFERRED_SUMMARY_OUTPUT: int := 16384

  function Min(a: int, b: int): int { if a < b then a else b }

  function SummaryAllowance(context: nat, normal: int): int {
    var preferred := Min(PREFERRED_SUMMARY_OUTPUT, context / 2);
    if normal > 0 then Min(preferred, normal) else preferred
  }

  /** DefaultSafetyMarginTokens */
  function SafetyMargin(context: nat): int {
    var margin := context / 20;
    var floored := if context >= 4096 && margin < 1024 then 1024 else margin;
    Min(floored, 8192)
  }

  /** When estimates grow with the prefix and ignore the output allowance, and the allowance fits
      the window, no request means that even the smallest safe prefix leaves no room for the
      client's minimum output. */
  lemma NoRequestMeansIrreducible(s: Source, candidates: seq<int>, turns: seq<int>, k: nat, r: FitResult)
    requires |candidates| > 0 && Ascending(candidates) && GrowingEstimate(s, candidates)
    requires forall c :: c in candidates ==> 0 < c
    requires forall t :: t in turns ==> t in candidates
    requires Prepare(s, candidates[0], s.output).Some? && OutputFree(s, candidates[0])
    requires Max(1, s.client.minimum) <= s.output <= s.client.room
    requires Decides(s, candidates, turns, k, r)
    ensures r.NoRequest? ==>
      !(0 < Prepare(s, candidates[0], s.output).value <= s.client.room - Max(1, s.client.minimum))
  {
    LargestRequest(s, candidates, turns, k, r);
    TrimmingIsExact(s, candidates[0]);
  }

  // ----- the next smaller source -----

  function RenderedLength(events: seq<Event>): nat {
    var text := Render(events);
    if text.Some? then |text.value| else 0
  }

  /** prefixBytes as it should be: the size of rendering the first i + 1 events at once. */
  function PrefixTable(events: seq<Event>): seq<nat> {
    seq(|events|, i requires 0 <= i < |events| => RenderedLength(events[..i + 1]))
  }

  /** The source up to `end` renders to at most `target` bytes. */
  function Within(table: seq<nat>, start: int, target: int): int -> bool {
    (end: int) => 0 <= end - start < |table| && table[end - start] <= target
  }

  /** Rendering event by event adds up to rendering the prefix at once. */
  lemma RenderStep(events: seq<Event>, i: nat)
    requires i < |events| && Render(events[..i]).Some?
    ensures Render([events[i]]).Some? <==> Render(events[..i + 1]).Some?
    ensures Render([events[i]]).Some? ==>
      RenderedLength(events[..i + 1]) == RenderedLength(events[..i]) + RenderedLength([events[i]])
  {
    assert events[..i + 1][..i] == events[..i];
    assert [events[i]][..0] == [];
  }

  /** The prefixBytes loop. */
  method FillPrefixBytes(events: seq<Event>) returns (ok: bool, prefixBytes: array<nat>, total: nat)
    ensures ok ==> prefixBytes[..] == PrefixTable(events)
    ensures ok ==> Render(events).Some? && total == RenderedLength(events)
    ensures ok <==> forall i :: 0 <= i < |events| ==> Render([events[i]]).Some?
  {
    prefixBytes := new nat[|events|];
    total := 0;
    assert events[..0] == [];
    for index := 0 to |events|
      invariant Render(events[..index]).Some? && total == RenderedLength(events[..index])
      invariant forall i :: 0 <= i < index ==> Render([events[i]]).Some?
      invariant forall i :: 0 <= i < index ==> prefixBytes[i] == RenderedLength(events[..i + 1])
    {
      var rendered := Render([events[index]]);
      RenderStep(events, index);
      if rendered.None? {
        return false, prefixBytes, total;
      }
      total := total + |rendered.value|;
      prefixBytes[index] := total;
    }
    assert events[..|events|] == events;
    return true, prefixBytes, total;
  }

  /** The candidates below the current end. */
  function Below(candidates: seq<int>, end: int): seq<int> {
    if |candidates| > 0 && candidates[|candidates| - 1] == end then candidates[..|candidates| - 1] else candidates
  }

  /** The shrink rule: the last complete turn within the target, else the first complete turn,
      else the last safe end within it, else the first safe end. */
  ghost function ShrinkChoice(candidates: seq<int>, turns: seq<int>, within: int -> bool): int
    requires |candidates| > 0
  {
    if LastBefore(turns, within) > 0 then LastBefore(turns, within)
    else if FirstPast(turns, within) > 0 then FirstPast(turns, within)
    else if LastBefore(candidates, within) > 0 then LastBefore(candidates, within)
    else candidates[0]
  }

  datatype ShrinkResult = RenderFailed | NothingSmaller | Smaller(end: int)

  /** nextSmallerSourceEnd, after the boundary window is loaded. */
  method NextSmallerEnd(start: int, end: int, events: seq<Event>, evidence: seq<Event>, groups: seq<AtomicGroup>)
    returns (r: ShrinkResult)
    requires Ordered(events)
    ensures r.NothingSmaller? <==> Below(SafeEnds(events, evidence, groups), end) == []
    ensures r.RenderFailed? ==> exists i :: 0 <= i < |events| && Render([events[i]]).None?
    ensures r.Smaller? ==> Render(events).Some?
    ensures r.Smaller? ==>
      var candidates := Below(SafeEnds(events, evidence, groups), end);
      r.end == ShrinkChoice(candidates, CompleteTurnEnds(events, evidence, candidates),
                            Within(PrefixTable(events), start, RenderedLength(events) / 2))
  {
    var candidates := SafeCompactionSourceEnds(events, evidence, groups);
    SafeEndsAscending(events, evidence, groups);
    if |candidates| > 0 && candidates[|candidates| - 1] == end {
      candidates := candidates[..|candidates| - 1];
    }
    assert forall c :: c in candidates ==> c in SafeEnds(events, evidence, groups);
    if |candidates| == 0 {
      return NothingSmaller;
    }
    var ok, prefixBytes, total := FillPrefixBytes(events);
    if !ok {
      return RenderFailed;
    }
    var turns := CompleteTurnSourceEnds(events, evidence, candidates);
    var chosen := ChooseSmaller(candidates, turns, Within(prefixBytes[..], start, total / 2));
    return Smaller(chosen);
  }

  /** The choice among complete turns, then among all safe ends. */
  method ChooseSmaller(candidates: seq<int>, turns: seq<int>, within: int -> bool) returns (chosen: int)
    requires |candidates| > 0 && forall c :: c in candidates ==> 0 < c
    ensures chosen == ShrinkChoice(candidates, turns, within)
  {
    var before, after := BoundariesAroundTarget(turns, within);
    if before > 0 {
      return before;
    }
    if after > 0 {
      return after;
    }
    chosen := candidates[0];
    var i := 0;
    while i < |candidates| && within(candidates[i])
      invariant 0 <= i <= |candidates|
      invariant forall j :: 0 <= j < i ==> within(candidates[j])
      invariant chosen == if i == 0 then candidates[0] else candidates[i - 1]
    {
      chosen := candidates[i];
      i := i + 1;
    }
    LeadUnique(candidates, within, i);
    assert i > 0 ==> candidates[i - 1] in candidates;
  }

  /** The predicate holds on an initial part of the candidates. */
  ghost predicate Initial(candidates: seq<int>, p: int -> bool) {
    forall i, j :: 0 <= i <= j < |candidates| && p(candidates[j]) ==> p(candidates[i])
  }

  lemma LastBeforeIsGreatest(candidates: seq<int>, p: int -> bool)
    requires Ascending(candidates) && Initial(candidates, p) && forall c :: c in candidates ==> 0 < c
    ensures LastBefore(candidates, p) > 0 <==> exists c :: c in candidates && p(c)
    ensures LastBefore(candidates, p) > 0 ==> LastBefore(candidates, p) in candidates && p(LastBefore(candidates, p))
    ensures forall c :: c in candidates && p(c) ==> c <= LastBefore(candidates, p)
    ensures LastBefore(candidates, p) == 0 && |candidates| > 0 ==> FirstPast(candidates, p) == candidates[0]
  {
    var k := Lead(candidates, p);
    forall c | c in candidates && p(c) ensures 0 < k && c <= candidates[k - 1] {
      var i :| 0 <= i < |candidates| && candidates[i] == c;
      if k <= i { assert false; }
    }
  }

  lemma {:induction false} RenderedLengthGrows(events: seq<Event>, i: nat, j: nat)
    requires i <= j <= |events| && Render(events[..j]).Some?
    ensures RenderedLength(events[..i]) <= RenderedLength(events[..j])
    decreases j - i
  {
    if i < j {
      assert events[..j][..j - 1] == events[..j - 1];
      RenderedLengthGrows(events, i, j - 1);
    }
  }

  lemma PrefixLengthGrows(events: seq<Event>, i: nat, j: nat)
    requires i <= j <= |events| && Render(events).Some?
    ensures RenderedLength(events[..i]) <= RenderedLength(events[..j])
  {
    RenderSomePrefix(events, j);
    RenderedLengthGrows(events, i, j);
  }

  lemma TableAt(events: seq<Event>, i: nat)
    requires i < |events|
    ensures |PrefixTable(events)| == |events| && PrefixTable(events)[i] == RenderedLength(events[..i + 1])
  {
  }

  lemma TableGrows(events: seq<Event>, i: nat, j: nat)
    requires i <= j < |events| && Render(events).Some?
    ensures |PrefixTable(events)| == |events| && PrefixTable(events)[i] <= PrefixTable(events)[j]
  {
    TableAt(events, i);
    TableAt(events, j);
    PrefixLengthGrows(events, i + 1, j + 1);
  }

  ghost predicate Growing(table: seq<nat>) {
    forall i, j :: 0 <= i <= j < |table| ==> table[i] <= table[j]
  }

  lemma PrefixTableGrows(events: seq<Event>)
    requires Render(events).Some?
    ensures |PrefixTable(events)| == |events| && Growing(PrefixTable(events))
  {
    forall i, j | 0 <= i <= j < |PrefixTable(events)| ensures PrefixTable(events)[i] <= PrefixTable(events)[j] {
      TableGrows(events, i, j);
    }
  }

  /** A source that ends earlier renders to no more. */
  lemma WithinIsInitial(table: seq<nat>, start: int, target: int, candidates: seq<int>)
    requires Growing(table) && Ascending(candidates)
    requires forall i :: 0 <= i < |candidates| ==> 0 <= candidates[i] - start < |table|
    ensures Initial(candidates, Within(table, start, target))
  {
    var p := Within(table, start, target);
    forall i, j | 0 <= i <= j < |candidates| && p(candidates[j]) ensures p(candidates[i]) {
      assert table[candidates[i] - start] <= table[candidates[j] - start];
    }
  }

  lemma {:induction false} RenderSomePrefix(events: seq<Event>, i: nat)
    requires i <= |events| && Render(events).Some?
    ensures Render(events[..i]).Some?
  {
    if i == |events| {
      assert events[..i] == events;
    } else {
      RenderSomePrefix(events[..|events| - 1], i);
      assert events[..|events| - 1][..i] == events[..i];
    }
  }

  /** c is the greatest member of the list that satisfies p. */
  ghost predicate GreatestWith(list: seq<int>, p: int -> bool, c: int) {
    c in list && p(c) && forall d :: d in list && p(d) ==> d <= c
  }

  ghost predicate AnyWith(list: seq<int>, p: int -> bool) {
    exists c :: c in list && p(c)
  }

  /** r is the latest complete turn within the target, else the first one, else the latest safe end
      within it, else the first. */
  ghost predicate Preferred(candidates: seq<int>, turns: seq<int>, within: int -> bool, r: int)
    requires |candidates| > 0
  {
    r in candidates &&
    if AnyWith(turns, within) then GreatestWith(turns, within, r)
    else if |turns| > 0 then r == turns[0]
    else if AnyWith(candidates, within) then GreatestWith(candidates, within, r)
    else r == candidates[0]
  }

  /** The shrink rule in plain terms: the latest complete-turn end within half the rendered bytes,
      else the first complete-turn end, else the latest safe end within half, else the first. */
  lemma ShrinkChoiceMeans(events: seq<Event>, start: int, candidates: seq<int>, turns: seq<int>)
    requires Render(events).Some? && |candidates| > 0 && Ascending(candidates) && Ascending(turns)
    requires forall c :: c in candidates ==> 0 < c && 0 <= c - start < |events|
    requires forall t :: t in turns ==> t in candidates
    ensures var within := Within(PrefixTable(events), start, RenderedLength(events) / 2);
      Preferred(candidates, turns, within, ShrinkChoice(candidates, turns, within))
  {
    PrefixTableGrows(events);
    ShrinkChoiceOf(PrefixTable(events), start, RenderedLength(events) / 2, candidates, turns);
  }

  lemma ShrinkChoiceOf(table: seq<nat>, start: int, target: int, candidates: seq<int>, turns: seq<int>)
    requires Growing(table) && |candidates| > 0 && Ascending(candidates) && Ascending(turns)
    requires forall c :: c in candidates ==> 0 < c && 0 <= c - start < |table|
    requires forall t :: t in turns ==> t in candidates
    ensures Preferred(candidates, turns, Within(table, start, target), ShrinkChoice(candidates, turns, Within(table, start, target)))
  {
    assert forall i :: 0 <= i < |candidates| ==> candidates[i] in candidates;
    assert forall i :: 0 <= i < |turns| ==> turns[i] in turns;
    WithinIsInitial(table, start, target, candidates);
    WithinIsInitial(table, start, target, turns);
    ShrinkChoiceIsGreatest(candidates, turns, Within(table, start, target));
  }

  lemma ShrinkChoiceIsGreatest(candidates: seq<int>, turns: seq<int>, within: int -> bool)
    requires |candidates| > 0 && Ascending(candidates) && Ascending(turns)
    requires Initial(candidates, within) && Initial(turns, within)
    requires forall c :: c in candidates ==> 0 < c
    requires forall t :: t in turns ==> t in candidates
    ensures Preferred(candidates, turns, within, ShrinkChoice(candidates, turns, within))
  {
    LastBeforeIsGreatest(candidates, within);
    LastBeforeIsGreatest(turns, within);
    assert |turns| > 0 ==> turns[0] in turns;
  }
}
