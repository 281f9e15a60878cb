/** Choosing where the retained tail starts, and turning that choice into a checkpoint range
    (internal/compaction/planner.go). */
module Selector {
  import opened Events
  import opened SourceEnds

  datatype BoundaryInput = BoundaryInput(
    sourceStart: int,
    desiredRetainFrom: int,
    desiredTokens: int,
    maximumRetainFrom: int,
    events: seq<Event>,
    groups: seq<AtomicGroup>)

  datatype InputError = SequencesRequired | DesiredExceedsMaximum | EventsNotOrdered | InvalidGroup(kind: string)

  datatype Selection = Invalid(error: InputError) | NoBoundary | RetainFrom(sequence: int)

  predicate WellFormedGroup(g: AtomicGroup) {
    0 < g.start <= g.end
  }

  ghost predicate ValidInput(input: BoundaryInput) {
    && 0 < input.sourceStart && 0 < input.desiredRetainFrom && 0 < input.maximumRetainFrom
    && input.desiredRetainFrom <= input.maximumRetainFrom
    && Ordered(input.events)
    && forall i :: 0 <= i < |input.groups| ==> WellFormedGroup(input.groups[i])
  }

  lemma {:induction false} OrderedToPrefix(events: seq<Event>, m: nat, n: nat)
    requires m <= n <= |events| && OrderedTo(events, n)
    ensures OrderedTo(events, m)
  {
    if m < n { OrderedToPrefix(events, m, n - 1); }
  }

  /** validateRetainBoundaryInput */
  method Validate(input: BoundaryInput) returns (error: Option<InputError>)
    ensures error.None? <==> ValidInput(input)
  {
    if input.sourceStart <= 0 || input.desiredRetainFrom <= 0 || input.maximumRetainFrom <= 0 {
      return Some(SequencesRequired);
    }
    if input.desiredRetainFrom > input.maximumRetainFrom {
      return Some(DesiredExceedsMaximum);
    }
    var previous := 0;
    for i := 0 to |input.events|
      invariant previous == if i == 0 then 0 else input.events[i - 1].sequence
      invariant OrderedTo(input.events, i)
    {
      if input.events[i].sequence <= previous {
        if Ordered(input.events) { OrderedToPrefix(input.events, i + 1, |input.events|); }
        return Some(EventsNotOrdered);
      }
      previous := input.events[i].sequence;
    }
    for i := 0 to |input.groups|
      invariant forall j :: 0 <= j < i ==> WellFormedGroup(input.groups[j])
    {
      if input.groups[i].start <= 0 || input.groups[i].end < input.groups[i].start {
        return Some(InvalidGroup(input.groups[i].kind));
      }
    }
    return None;
  }

  // ----- candidates -----

  function InputEnds(input: BoundaryInput): seq<int> {
    SafeEnds(input.events, input.events, input.groups)
  }

  /** The ends with lo <= end < hi, in order. */
  function Eligible(ends: seq<int>, lo: int, hi: int): seq<int> {
    if |ends| == 0 then [] else
    var n := |ends| - 1;
    Eligible(ends[..n], lo, hi) + (if lo <= ends[n] < hi then [ends[n]] else [])
  }

  lemma {:induction false} EligibleMembers(ends: seq<int>, lo: int, hi: int)
    ensures forall s :: s in Eligible(ends, lo, hi) <==> s in ends && lo <= s < hi
  {
    if |ends| > 0 {
      var n := |ends| - 1;
      EligibleMembers(ends[..n], lo, hi);
      assert ends == ends[..n] + [ends[n]];
    }
  }

  lemma {:induction false} EligibleAscending(ends: seq<int>, lo: int, hi: int)
    requires Ascending(ends)
    ensures Ascending(Eligible(ends, lo, hi))
  {
    if |ends| > 0 {
      var n := |ends| - 1;
      assert Ascending(ends[..n]);
      EligibleAscending(ends[..n], lo, hi);
      var front := Eligible(ends[..n], lo, hi);
      forall i | 0 <= i < |front| ensures front[i] < ends[n] {
        assert front[i] in front;
        EligibleMembers(ends[..n], lo, hi);
      }
    }
  }

  /** The sequences after a list of ends. */
  function After(ends: seq<int>): seq<int> {
    seq(|ends|, i requires 0 <= i < |ends| => ends[i] + 1)
  }

  /** Every sequence the tail may start from. */
  function Candidates(input: BoundaryInput): seq<int> {
    After(Eligible(InputEnds(input), input.sourceStart, input.maximumRetainFrom))
  }

  /** A candidate is the sequence after a safe end inside the allowed source. */
  lemma CandidatesMembers(input: BoundaryInput, retainFrom: int)
    ensures retainFrom in Candidates(input) <==>
      retainFrom - 1 in InputEnds(input) && input.sourceStart <= retainFrom - 1 < input.maximumRetainFrom
  {
    var ends := Eligible(InputEnds(input), input.sourceStart, input.maximumRetainFrom);
    EligibleMembers(InputEnds(input), input.sourceStart, input.maximumRetainFrom);
    if retainFrom - 1 in ends {
      var i :| 0 <= i < |ends| && ends[i] == retainFrom - 1;
      assert After(ends)[i] == retainFrom;
    }
    if retainFrom in After(ends) {
      var i :| 0 <= i < |After(ends)| && After(ends)[i] == retainFrom;
      assert ends[i] == retainFrom - 1;
    }
  }

  /** RetainFromEventSequenceCandidates */
  method RetainFromCandidates(input: BoundaryInput) returns (error: Option<InputError>, candidates: seq<int>)
    ensures error.None? <==> ValidInput(input)
    ensures candidates == if error.None? then Candidates(input) else []
  {
    candidates := [];
    error := Validate(input);
    if error.Some? {
      return;
    }
    var ends := SafeCompactionSourceEnds(input.events, input.events, input.groups);
    for i := 0 to |ends|
      invariant candidates == After(Eligible(ends[..i], input.sourceStart, input.maximumRetainFrom))
    {
      assert ends[..i + 1][..i] == ends[..i];
      if ends[i] < input.sourceStart || ends[i] >= input.maximumRetainFrom {
        continue;
      }
      candidates := candidates + [ends[i] + 1];
    }
    assert ends[..|ends|] == ends;
  }

  // ----- what the selector weighs -----

  /** Estimated tokens of the events retained from a sequence on. */
  function TailTokens(events: seq<Event>, from: int): nat {
    if |events| == 0 then 0 else
    var e := events[|events| - 1];
    TailTokens(events[..|events| - 1], from) + (if e.sequence < from then 0 else EventTokens(e))
  }

  predicate TailFits(input: BoundaryInput, from: int) {
    input.desiredTokens <= 0 || TailTokens(input.events, from) <= input.desiredTokens
  }

  function TurnTokens(events: seq<Event>, turn: TurnId): nat {
    if |events| == 0 then 0 else
    var e := events[|events| - 1];
    TurnTokens(events[..|events| - 1], turn) + (if e.turn == turn then EventTokens(e) else 0)
  }

  /** The least sequence of the turn's opening events, 0 when it has none. */
  function OpeningOf(events: seq<Event>, turn: TurnId): int {
    if |events| == 0 then 0 else
    var e := events[|events| - 1];
    var front := OpeningOf(events[..|events| - 1], turn);
    if e.turn == turn && e.opening && (front == 0 || e.sequence < front) then e.sequence else front
  }

  function TurnAt(events: seq<Event>, s: int): TurnId {
    var e := EventAt(events, s);
    if e.Some? then e.value.turn else NIL_TURN
  }

  /** The whole-turn rule: keep the turn that the desired tail would split, when the turn
      is small enough and starts behind a safe end. */
  ghost function WholeTurnChoice(input: BoundaryInput): int {
    var turn := TurnAt(input.events, input.desiredRetainFrom);
    var opening := OpeningOf(input.events, turn);
    if input.desiredTokens <= 0 || turn == NIL_TURN ||
       opening <= input.sourceStart || opening > input.desiredRetainFrom ||
       opening > input.maximumRetainFrom || TurnTokens(input.events, turn) > input.desiredTokens ||
       opening - 1 !in InputEnds(input)
    then 0 else opening
  }

  function AtMost(bound: int): int -> bool {
    e => e <= bound
  }

  function Min(a: int, b: int): int { if a < b then a else b }

  ghost function TurnBoundaries(input: BoundaryInput): seq<int> {
    Eligible(CompleteTurnEnds(input.events, input.events, InputEnds(input)),
             input.sourceStart, Min(input.maximumRetainFrom, Last(input.events)))
  }

  /** The complete-turn rule: the last complete turn before the target if the tail then fits,
      otherwise the first complete turn past it. */
  ghost function TurnBoundaryChoice(input: BoundaryInput): int {
    if input.desiredTokens <= 0 || |input.events| == 0 then 0 else
    var ends := TurnBoundaries(input);
    var before := LastBefore(ends, AtMost(input.desiredRetainFrom - 1));
    var past := FirstPast(ends, AtMost(input.desiredRetainFrom - 1));
    if before > 0 && TailFits(input, before + 1) then before + 1
    else if past > 0 then past + 1
    else 0
  }

  /** The settled-step rule, over every safe end. */
  ghost function StepChoice(input: BoundaryInput): Selection {
    var ends := Eligible(InputEnds(input), input.sourceStart, input.maximumRetainFrom);
    var before := LastBefore(ends, AtMost(input.desiredRetainFrom - 1));
    var past := FirstPast(ends, AtMost(input.desiredRetainFrom - 1));
    if before > 0 && TailFits(input, before + 1) then RetainFrom(before + 1)
    else if past > 0 then RetainFrom(past + 1)
    else if before > 0 then RetainFrom(before + 1)
    else NoBoundary
  }

  ghost function Choice(input: BoundaryInput): Selection {
    if WholeTurnChoice(input) > 0 then RetainFrom(WholeTurnChoice(input))
    else if TurnBoundaryChoice(input) > 0 then RetainFrom(TurnBoundaryChoice(input))
    else StepChoice(input)
  }

  // ----- the selector's loops -----

  lemma {:induction false} TailTokensGrow(events: seq<Event>, from: int, i: nat)
    requires i <= |events|
    ensures TailTokens(events[..i], from) <= TailTokens(events, from)
    decreases |events| - i
  {
    if i == |events| {
      assert events[..i] == events;
    } else {
      assert events[..i + 1][..i] == events[..i];
      TailTokensGrow(events, from, i + 1);
    }
  }

  /** retainedTailFitsTarget */
  method RetainedTailFitsTarget(input: BoundaryInput, from: int) returns (fits: bool)
    ensures fits == TailFits(input, from)
  {
    if input.desiredTokens <= 0 {
      return true;
    }
    var tokens := 0;
    for i := 0 to |input.events|
      invariant tokens == TailTokens(input.events[..i], from)
      invariant tokens <= input.desiredTokens
    {
      assert input.events[..i + 1][..i] == input.events[..i];
      if input.events[i].sequence < from {
        continue;
      }
      tokens := tokens + EventTokens(input.events[i]);
      if tokens > input.desiredTokens {
        TailTokensGrow(input.events, from, i + 1);
        return false;
      }
    }
    assert input.events[..|input.events|] == input.events;
    return true;
  }

  lemma {:induction false} EventAtFound(events: seq<Event>, s: int, i: nat)
    requires Ordered(events) && i < |events| && events[i].sequence == s
    ensures EventAt(events, s) == Some(events[i])
  {
    var n := |events| - 1;
    if i < n {
      FrontOrdered(events);
      EventAtFound(events[..n], s, i);
    }
  }

  lemma {:induction false} EventAtMissing(events: seq<Event>, s: int)
    requires forall i :: 0 <= i < |events| ==> events[i].sequence != s
    ensures EventAt(events, s) == None
  {
    if |events| > 0 {
      EventAtMissing(events[..|events| - 1], s);
    }
  }

  /** wholeTurnRetainFrom */
  method WholeTurnRetainFrom(input: BoundaryInput, safeEnds: seq<int>) returns (retainFrom: int)
    requires ValidInput(input) && safeEnds == InputEnds(input)
    ensures retainFrom == WholeTurnChoice(input)
  {
    if input.desiredTokens <= 0 {
      return 0;
    }
    var turn := NIL_TURN;
    var k := 0;
    while k < |input.events| && input.events[k].sequence != input.desiredRetainFrom
      invariant 0 <= k <= |input.events|
      invariant forall j :: 0 <= j < k ==> input.events[j].sequence != input.desiredRetainFrom
    {
      k := k + 1;
    }
    if k < |input.events| {
      EventAtFound(input.events, input.desiredRetainFrom, k);
      turn := input.events[k].turn;
    } else {
      EventAtMissing(input.events, input.desiredRetainFrom);
    }
    if turn == NIL_TURN {
      return 0;
    }
    var opening := 0;
    var tokens := 0;
    for i := 0 to |input.events|
      invariant tokens == TurnTokens(input.events[..i], turn)
      invariant opening == OpeningOf(input.events[..i], turn)
    {
      assert input.events[..i + 1][..i] == input.events[..i];
      var e := input.events[i];
      if e.turn != turn {
        continue;
      }
      tokens := tokens + EventTokens(e);
      if e.opening && (opening == 0 || e.sequence < opening) {
        opening := e.sequence;
      }
    }
    assert input.events[..|input.events|] == input.events;
    if opening <= input.sourceStart || opening > input.desiredRetainFrom ||
       opening > input.maximumRetainFrom || tokens > input.desiredTokens {
      return 0;
    }
    var wanted := opening - 1;
    for i := 0 to |safeEnds|
      invariant wanted !in safeEnds[..i]
    {
      if safeEnds[i] == wanted {
        return opening;
      }
      assert forall s :: s in safeEnds[..i + 1] <==> s in safeEnds[..i] || s == safeEnds[i];
    }
    assert safeEnds[..|safeEnds|] == safeEnds;
    return 0;
  }

  /** wholeTurnBoundaryRetainFrom */
  method WholeTurnBoundaryRetainFrom(input: BoundaryInput, safeEnds: seq<int>) returns (retainFrom: int)
    requires safeEnds == InputEnds(input)
    ensures retainFrom == TurnBoundaryChoice(input)
  {
    if input.desiredTokens <= 0 || |input.events| == 0 {
      return 0;
    }
    var desiredEnd := input.desiredRetainFrom - 1;
    var latest := input.events[|input.events| - 1].sequence;
    var turnEnds := CompleteTurnSourceEnds(input.events, input.events, safeEnds);
    var eligible := [];
    for i := 0 to |turnEnds|
      invariant eligible == Eligible(turnEnds[..i], input.sourceStart, Min(input.maximumRetainFrom, latest))
    {
      assert turnEnds[..i + 1][..i] == turnEnds[..i];
      if turnEnds[i] < input.sourceStart || turnEnds[i] >= input.maximumRetainFrom || turnEnds[i] >= latest {
        continue;
      }
      eligible := eligible + [turnEnds[i]];
    }
    assert turnEnds[..|turnEnds|] == turnEnds;
    var before, past := BoundariesAroundTarget(eligible, AtMost(desiredEnd));
    if before > 0 {
      var fits := RetainedTailFitsTarget(input, before + 1);
      if fits {
        return before + 1;
      }
    }
    if past > 0 {
      return past + 1;
    }
    return 0;
  }

  /** SelectRetainFromEventSequence */
  method SelectRetainFrom(input: BoundaryInput) returns (selection: Selection)
    ensures selection.Invalid? <==> !ValidInput(input)
    ensures ValidInput(input) ==> Wanted(input, selection)
  {
    var error := Validate(input);
    if error.Some? {
      return Invalid(error.value);
    }
    selection := ApplyRules(input);
    ChoiceIsWanted(input);
  }

  /** The three rules, tried one after the other. */
  method ApplyRules(input: BoundaryInput) returns (selection: Selection)
    requires ValidInput(input)
    ensures selection == Choice(input) && !selection.Invalid?
  {
    var safeEnds := SafeCompactionSourceEnds(input.events, input.events, input.groups);
    SafeEndsAscending(input.events, input.events, input.groups);
    var whole := WholeTurnRetainFrom(input, safeEnds);
    if whole > 0 {
      return RetainFrom(whole);
    }
    var boundary := WholeTurnBoundaryRetainFrom(input, safeEnds);
    if boundary > 0 {
      return RetainFrom(boundary);
    }
    var latestBefore, firstAfter := AroundDesired(input, safeEnds);
    if latestBefore > 0 {
      var fits := RetainedTailFitsTarget(input, latestBefore + 1);
      if fits {
        return RetainFrom(latestBefore + 1);
      }
    }
    if firstAfter > 0 {
      return RetainFrom(firstAfter + 1);
    }
    if latestBefore > 0 {
      return RetainFrom(latestBefore + 1);
    }
    return NoBoundary;
  }

  /** The selector's scan over the safe ends; it stops at the first end past the target. */
  method AroundDesired(input: BoundaryInput, safeEnds: seq<int>) returns (latestBefore: int, firstAfter: int)
    ensures latestBefore ==
      LastBefore(Eligible(safeEnds, input.sourceStart, input.maximumRetainFrom), AtMost(input.desiredRetainFrom - 1))
    ensures firstAfter ==
      FirstPast(Eligible(safeEnds, input.sourceStart, input.maximumRetainFrom), AtMost(input.desiredRetainFrom - 1))
  {
    var lo, hi, target := input.sourceStart, input.maximumRetainFrom, input.desiredRetainFrom - 1;
    latestBefore, firstAfter := 0, 0;
    for i := 0 to |safeEnds|
      invariant AllWithin(Eligible(safeEnds[..i], lo, hi), target)
      invariant latestBefore == LastOr0(Eligible(safeEnds[..i], lo, hi))
    {
      assert safeEnds[..i + 1][..i] == safeEnds[..i];
      var end := safeEnds[i];
      if end < lo || end >= hi {
        continue;
      }
      if end <= target {
        latestBefore := end;
        continue;
      }
      firstAfter := end;
      ScanStops(safeEnds, lo, hi, target, i);
      return;
    }
    assert safeEnds[..|safeEnds|] == safeEnds;
    LeadUnique(Eligible(safeEnds, lo, hi), AtMost(target), |Eligible(safeEnds, lo, hi)|);
  }

  ghost predicate AllWithin(ends: seq<int>, target: int) {
    forall j :: 0 <= j < |ends| ==> ends[j] <= target
  }

  function LastOr0(ends: seq<int>): int {
    if |ends| == 0 then 0 else ends[|ends| - 1]
  }

  lemma ScanStops(ends: seq<int>, lo: int, hi: int, target: int, i: nat)
    requires i < |ends| && lo <= ends[i] < hi && target < ends[i]
    requires AllWithin(Eligible(ends[..i], lo, hi), target)
    ensures LastBefore(Eligible(ends, lo, hi), AtMost(target)) == LastOr0(Eligible(ends[..i], lo, hi))
    ensures FirstPast(Eligible(ends, lo, hi), AtMost(target)) == ends[i]
  {
    var kept := Eligible(ends[..i], lo, hi);
    var all := Eligible(ends, lo, hi);
    assert ends[..i + 1][..i] == ends[..i];
    EligibleSplit(ends, lo, hi, i + 1);
    assert kept + [ends[i]] <= all;
    assert forall j :: 0 <= j < |kept| ==> all[j] == kept[j];
    LeadUnique(all, AtMost(target), |kept|);
  }

  lemma {:induction false} EligibleSplit(ends: seq<int>, lo: int, hi: int, i: nat)
    requires i <= |ends|
    ensures Eligible(ends[..i], lo, hi) <= Eligible(ends, lo, hi)
    decreases |ends| - i
  {
    if i == |ends| {
      assert ends[..i] == ends;
    } else {
      assert ends[..i + 1][..i] == ends[..i];
      EligibleSplit(ends, lo, hi, i + 1);
    }
  }

  // ----- what the selection guarantees -----

  lemma BoundaryMember(candidates: seq<int>, before: int -> bool)
    ensures LastBefore(candidates, before) in candidates || LastBefore(candidates, before) == 0
    ensures FirstPast(candidates, before) in candidates || FirstPast(candidates, before) == 0
    ensures LastBefore(candidates, before) == 0 && FirstPast(candidates, before) == 0 ==>
      candidates == [] || 0 in candidates
  {
  }

  lemma WholeTurnChoiceIsCandidate(input: BoundaryInput)
    requires WholeTurnChoice(input) > 0
    ensures WholeTurnChoice(input) in Candidates(input)
  {
    CandidatesMembers(input, WholeTurnChoice(input));
  }

  lemma TurnBoundaryChoiceIsCandidate(input: BoundaryInput)
    requires ValidInput(input) && TurnBoundaryChoice(input) > 0
    ensures TurnBoundaryChoice(input) in Candidates(input)
  {
    var turnEnds := CompleteTurnEnds(input.events, input.events, InputEnds(input));
    BoundaryMember(TurnBoundaries(input), AtMost(input.desiredRetainFrom - 1));
    assert TurnBoundaryChoice(input) - 1 in TurnBoundaries(input);
    EligibleMembers(turnEnds, input.sourceStart, Min(input.maximumRetainFrom, Last(input.events)));
    CompleteTurnEndsMembers(input.events, input.events, InputEnds(input));
    CandidatesMembers(input, TurnBoundaryChoice(input));
  }

  lemma StepChoiceIsCandidate(input: BoundaryInput)
    requires ValidInput(input)
    ensures StepChoice(input).RetainFrom? <==> Candidates(input) != []
    ensures StepChoice(input).RetainFrom? ==> StepChoice(input).sequence in Candidates(input)
  {
    var ends := Eligible(InputEnds(input), input.sourceStart, input.maximumRetainFrom);
    assert forall s :: s in ends ==> 0 < s by {
      SafeEndsAscending(input.events, input.events, input.groups);
      EligibleMembers(InputEnds(input), input.sourceStart, input.maximumRetainFrom);
    }
    BoundaryMember(ends, AtMost(input.desiredRetainFrom - 1));
    assert |Candidates(input)| == |ends|;
    if StepChoice(input).RetainFrom? {
      assert StepChoice(input).sequence - 1 in ends;
      EligibleMembers(InputEnds(input), input.sourceStart, input.maximumRetainFrom);
      CandidatesMembers(input, StepChoice(input).sequence);
    }
  }

  /** Sound and complete: a boundary is selected exactly when a candidate exists, and the
      selected sequence is one of the candidates. */
  lemma SelectionIsSoundAndComplete(input: BoundaryInput)
    requires ValidInput(input)
    ensures Choice(input).RetainFrom? <==> Candidates(input) != []
    ensures Choice(input).RetainFrom? ==> Choice(input).sequence in Candidates(input)
  {
    if WholeTurnChoice(input) > 0 {
      WholeTurnChoiceIsCandidate(input);
    } else if TurnBoundaryChoice(input) > 0 {
      TurnBoundaryChoiceIsCandidate(input);
    } else {
      StepChoiceIsCandidate(input);
    }
  }

  /** The ends around a bound: the last one at or below it and the first one past it. */
  lemma Neighbours(ends: seq<int>, bound: int, other: int)
    requires Ascending(ends) && other in ends && forall s :: s in ends ==> 0 < s
    ensures var before, past := LastBefore(ends, AtMost(bound)), FirstPast(ends, AtMost(bound));
      && (other <= bound ==> other <= before)
      && (other > bound ==> 0 < past <= other)
      && (before > 0 ==> before <= bound)
      && (past > 0 ==> bound < past)
  {
    var i :| 0 <= i < |ends| && ends[i] == other;
    var k := Lead(ends, AtMost(bound));
    assert k > 0 ==> AtMost(bound)(ends[k - 1]) && ends[k - 1] in ends;
    assert i < k ==> AtMost(bound)(ends[i]);
    assert k < |ends| ==> !AtMost(bound)(ends[k]) && ends[k] in ends;
  }

  lemma {:induction false} TailShrinks(events: seq<Event>, from: int, later: int)
    requires from <= later
    ensures TailTokens(events, later) <= TailTokens(events, from)
  {
    if |events| > 0 { TailShrinks(events[..|events| - 1], from, later); }
  }

  /** r is the best place among all those considered: the last one at or before the desired
      sequence if any of those keeps the tail within its target, otherwise the first one past it. */
  ghost predicate Best(input: BoundaryInput, r: int, other: int) {
    var desired := input.desiredRetainFrom;
    && (other <= desired && TailFits(input, other) ==> other <= r <= desired && TailFits(input, r))
    && (other <= desired && r <= desired ==> other <= r)
    && (other > desired ==> r <= other)
    && (other > desired && r <= desired ==> TailFits(input, r))
  }

  lemma RuleIsBest(input: BoundaryInput, ends: seq<int>, other: int, r: int)
    requires Ascending(ends) && other - 1 in ends && forall s :: s in ends ==> 0 < s
    requires var before := LastBefore(ends, AtMost(input.desiredRetainFrom - 1));
      var past := FirstPast(ends, AtMost(input.desiredRetainFrom - 1));
      if before > 0 && TailFits(input, before + 1) then r == before + 1
      else if past > 0 then r == past + 1 else r == before + 1
    ensures Best(input, r, other)
  {
    var bound := input.desiredRetainFrom - 1;
    Neighbours(ends, bound, other - 1);
    var before := LastBefore(ends, AtMost(bound));
    if other <= input.desiredRetainFrom {
      TailShrinks(input.events, other, before + 1);
    }
  }

  /** The settled-step rule picks the best candidate. */
  lemma StepChoiceIsBest(input: BoundaryInput, other: int)
    requires ValidInput(input) && StepChoice(input).RetainFrom? && other in Candidates(input)
    ensures Best(input, StepChoice(input).sequence, other)
  {
    var ends := Eligible(InputEnds(input), input.sourceStart, input.maximumRetainFrom);
    SafeEndsAscending(input.events, input.events, input.groups);
    EligibleAscending(InputEnds(input), input.sourceStart, input.maximumRetainFrom);
    EligibleMembers(InputEnds(input), input.sourceStart, input.maximumRetainFrom);
    CandidatesMembers(input, other);
    RuleIsBest(input, ends, other, StepChoice(input).sequence);
  }

  /** The complete-turn rule picks the best of the complete turns, except that it gives up when
      none before the target fits and none follows it. */
  lemma TurnBoundaryChoiceIsBest(input: BoundaryInput, other: int)
    requires ValidInput(input) && 0 < input.desiredTokens && other - 1 in TurnBoundaries(input)
    ensures TurnBoundaryChoice(input) > 0 ==> Best(input, TurnBoundaryChoice(input), other)
    ensures TurnBoundaryChoice(input) == 0 ==> other <= input.desiredRetainFrom && !TailFits(input, other)
  {
    var ends := TurnBoundaries(input);
    var turnEnds := CompleteTurnEnds(input.events, input.events, InputEnds(input));
    SafeEndsAscending(input.events, input.events, input.groups);
    CompleteTurnEndsMembers(input.events, input.events, InputEnds(input));
    EligibleAscending(turnEnds, input.sourceStart, Min(input.maximumRetainFrom, Last(input.events)));
    EligibleMembers(turnEnds, input.sourceStart, Min(input.maximumRetainFrom, Last(input.events)));
    TurnRuleIsBest(input, ends, other);
  }

  lemma TurnRuleIsBest(input: BoundaryInput, ends: seq<int>, other: int)
    requires 0 < input.desiredTokens && |input.events| > 0 && ends == TurnBoundaries(input)
    requires Ascending(ends) && other - 1 in ends && forall s :: s in ends ==> 0 < s
    ensures TurnBoundaryChoice(input) > 0 ==> Best(input, TurnBoundaryChoice(input), other)
    ensures TurnBoundaryChoice(input) == 0 ==> other <= input.desiredRetainFrom && !TailFits(input, other)
  {
    var bound := input.desiredRetainFrom - 1;
    Neighbours(ends, bound, other - 1);
    var before := LastBefore(ends, AtMost(bound));
    if TurnBoundaryChoice(input) > 0 {
      RuleIsBest(input, ends, other, TurnBoundaryChoice(input));
    } else {
      TailShrinks(input.events, other, before + 1);
    }
  }

  lemma {:induction false} OpeningOfMeans(events: seq<Event>, turn: TurnId)
    requires forall i :: 0 <= i < |events| ==> 0 < events[i].sequence
    ensures forall i :: 0 <= i < |events| && events[i].turn == turn && events[i].opening ==>
      0 < OpeningOf(events, turn) <= events[i].sequence
    ensures OpeningOf(events, turn) != 0 ==>
      exists i :: 0 <= i < |events| && events[i].turn == turn && events[i].opening && events[i].sequence == OpeningOf(events, turn)
  {
    if |events| > 0 {
      var n := |events| - 1;
      OpeningOfMeans(events[..n], turn);
      assert forall i :: 0 <= i < n ==> events[..n][i] == events[i];
    }
  }

  /** The whole-turn rule keeps the turn of the desired sequence whole: no opening event of that
      turn comes before the tail, the tail starts at one of them, and the turn is within the target. */
  lemma WholeTurnIsKept(input: BoundaryInput, i: nat)
    requires ValidInput(input) && WholeTurnChoice(input) > 0 && i < |input.events|
    requires input.events[i].opening && input.events[i].turn == TurnAt(input.events, input.desiredRetainFrom)
    ensures WholeTurnChoice(input) <= input.events[i].sequence && WholeTurnChoice(input) <= input.desiredRetainFrom
    ensures TurnTokens(input.events, input.events[i].turn) <= input.desiredTokens
    ensures exists e :: e in input.events && e.sequence == WholeTurnChoice(input) && e.opening && e.turn == input.events[i].turn
  {
    OrderedMeans(input.events, |input.events|);
    OpeningOfMeans(input.events, input.events[i].turn);
  }

  // ----- which rule decides -----

  /** The turn's first opening event has sequence r. */
  ghost predicate FirstOpening(events: seq<Event>, turn: TurnId, r: int) {
    && (exists e :: e in events && e.turn == turn && e.opening && e.sequence == r)
    && (forall e :: e in events && e.turn == turn && e.opening ==> r <= e.sequence)
  }

  /** The tail from r keeps the turn of the desired event whole: the turn's first opening event is r,
      after the source's start, at or before the desired sequence, right behind a safe end, and the
      events of the turn cost no more than a positive target. */
  ghost predicate KeepsTurnWhole(input: BoundaryInput, desired: Event, r: int) {
    && desired in input.events && desired.sequence == input.desiredRetainFrom && desired.turn != NIL_TURN
    && FirstOpening(input.events, desired.turn, r)
    && input.sourceStart < r <= input.desiredRetainFrom && r <= input.maximumRetainFrom
    && r - 1 in InputEnds(input)
    && 0 < input.desiredTokens && TurnTokens(input.events, desired.turn) <= input.desiredTokens
  }

  /** r comes right after a complete turn inside the allowed source, with events left to keep. */
  ghost predicate AfterTurn(input: BoundaryInput, r: int) {
    && r in Candidates(input) && r <= Last(input.events) && EndsTurn(input.events, input.events, r - 1)
  }

  /** Retaining from r is past the target, or within it. */
  predicate Reaches(input: BoundaryInput, r: int) {
    r > input.desiredRetainFrom || TailFits(input, r)
  }

  ghost predicate BestAfterTurn(input: BoundaryInput, r: int) {
    AfterTurn(input, r) && forall other :: AfterTurn(input, other) ==> Best(input, r, other)
  }

  ghost predicate BestCandidate(input: BoundaryInput, r: int) {
    r in Candidates(input) && forall other :: other in Candidates(input) ==> Best(input, r, other)
  }

  /** What is to be selected: the turn of the desired event if it can be kept whole; else the best
      place after a complete turn, if a positive target is met by one or one lies past it; else the
      best candidate; else nothing. */
  ghost predicate Wanted(input: BoundaryInput, selection: Selection) {
    if exists desired, r :: KeepsTurnWhole(input, desired, r) then
      selection.RetainFrom? && exists desired :: KeepsTurnWhole(input, desired, selection.sequence)
    else if 0 < input.desiredTokens && exists r :: AfterTurn(input, r) && Reaches(input, r) then
      selection.RetainFrom? && BestAfterTurn(input, selection.sequence)
    else if Candidates(input) != [] then
      selection.RetainFrom? && BestCandidate(input, selection.sequence)
    else selection.NoBoundary?
  }

  /** Token counts add up over any split of the events, and a single event counts if it is of the
      turn, or in the tail. */
  lemma {:induction false} TokensAddUp(a: seq<Event>, b: seq<Event>, turn: TurnId, from: int)
    ensures TurnTokens(a + b, turn) == TurnTokens(a, turn) + TurnTokens(b, turn)
    ensures TailTokens(a + b, from) == TailTokens(a, from) + TailTokens(b, from)
    ensures |b| == 1 ==> TurnTokens(b, turn) == if b[0].turn == turn then EventTokens(b[0]) else 0
    ensures |b| == 1 ==> TailTokens(b, from) == if from <= b[0].sequence then EventTokens(b[0]) else 0
  {
    if |b| == 0 {
      assert a + b == a;
    } else {
      var n := |b| - 1;
      assert (a + b)[..|a + b| - 1] == a + b[..n];
      TokensAddUp(a, b[..n], turn, from);
    }
  }

  lemma FirstOpeningIs(events: seq<Event>, turn: TurnId, r: int)
    requires Ordered(events)
    ensures FirstOpening(events, turn, r) <==> 0 < r == OpeningOf(events, turn)
  {
    OrderedMeans(events, |events|);
    OpeningOfMeans(events, turn);
    if FirstOpening(events, turn, r) {
      var e :| e in events && e.turn == turn && e.opening && e.sequence == r;
      var i :| 0 <= i < |events| && events[i] == e;
    }
  }

  lemma TurnAtIs(events: seq<Event>, e: Event)
    requires Ordered(events) && e in events
    ensures TurnAt(events, e.sequence) == e.turn
  {
    var i :| 0 <= i < |events| && events[i] == e;
    EventAtFound(events, e.sequence, i);
  }

  lemma TurnAtFound(events: seq<Event>, s: int) returns (e: Event)
    requires TurnAt(events, s) != NIL_TURN
    ensures e in events && e.sequence == s && e.turn == TurnAt(events, s)
  {
    if forall i :: 0 <= i < |events| ==> events[i].sequence != s {
      EventAtMissing(events, s);
      assert false;
    }
    e := EventAt(events, s).value;
    EventAtMember(events, s);
  }

  lemma {:induction false} EventAtMember(events: seq<Event>, s: int)
    requires EventAt(events, s).Some?
    ensures EventAt(events, s).value in events && EventAt(events, s).value.sequence == s
  {
    if events[|events| - 1].sequence != s { EventAtMember(events[..|events| - 1], s); }
  }

  /** The whole-turn rule finds a turn exactly when there is one to keep. */
  lemma WholeTurnIff(input: BoundaryInput)
    requires ValidInput(input)
    ensures forall desired, r :: KeepsTurnWhole(input, desired, r) ==> r == WholeTurnChoice(input) > 0
    ensures WholeTurnChoice(input) > 0 ==> exists desired :: KeepsTurnWhole(input, desired, WholeTurnChoice(input))
  {
    forall desired, r | KeepsTurnWhole(input, desired, r) ensures r == WholeTurnChoice(input) > 0 {
      TurnAtIs(input.events, desired);
      FirstOpeningIs(input.events, desired.turn, r);
    }
    if WholeTurnChoice(input) > 0 {
      var desired := TurnAtFound(input.events, input.desiredRetainFrom);
      FirstOpeningIs(input.events, desired.turn, WholeTurnChoice(input));
      assert KeepsTurnWhole(input, desired, WholeTurnChoice(input));
    }
  }

  lemma TurnBoundaryIs(input: BoundaryInput, r: int)
    requires ValidInput(input)
    ensures AfterTurn(input, r) <==> r - 1 in TurnBoundaries(input)
  {
    var turnEnds := CompleteTurnEnds(input.events, input.events, InputEnds(input));
    CompleteTurnEndsMembers(input.events, input.events, InputEnds(input));
    EligibleMembers(turnEnds, input.sourceStart, Min(input.maximumRetainFrom, Last(input.events)));
    CandidatesMembers(input, r);
  }

  /** The complete-turn rule finds a place exactly when one is within the target or past it. */
  lemma TurnBoundaryIff(input: BoundaryInput)
    requires ValidInput(input)
    ensures TurnBoundaryChoice(input) > 0 <==>
      0 < input.desiredTokens && exists r :: AfterTurn(input, r) && Reaches(input, r)
    ensures TurnBoundaryChoice(input) > 0 ==> BestAfterTurn(input, TurnBoundaryChoice(input))
  {
    var r := TurnBoundaryChoice(input);
    forall other | AfterTurn(input, other) && 0 < input.desiredTokens
      ensures r > 0 ==> Best(input, r, other)
      ensures r == 0 ==> !Reaches(input, other)
    {
      TurnBoundaryIs(input, other);
      TurnBoundaryChoiceIsBest(input, other);
    }
    if r > 0 {
      BoundaryMember(TurnBoundaries(input), AtMost(input.desiredRetainFrom - 1));
      TurnBoundaryIs(input, r);
      TurnBoundaryReaches(input);
    }
  }

  lemma TurnBoundaryReaches(input: BoundaryInput)
    requires TurnBoundaryChoice(input) > 0
    ensures Reaches(input, TurnBoundaryChoice(input))
  {
    var ends, bound := TurnBoundaries(input), input.desiredRetainFrom - 1;
    var k := Lead(ends, AtMost(bound));
    assert k < |ends| ==> !AtMost(bound)(ends[k]);
  }

  /** The selection is the wanted one. */
  lemma ChoiceIsWanted(input: BoundaryInput)
    requires ValidInput(input)
    ensures Wanted(input, Choice(input))
  {
    WholeTurnIff(input);
    if WholeTurnChoice(input) <= 0 {
      TurnBoundaryIff(input);
      if TurnBoundaryChoice(input) <= 0 {
        StepChoiceIsCandidate(input);
        if StepChoice(input).RetainFrom? {
          forall other | other in Candidates(input) ensures Best(input, StepChoice(input).sequence, other) {
            StepChoiceIsBest(input, other);
          }
        }
      }
    }
  }

  /** And there is only one: the rules leave no freedom. */
  lemma WantedIsUnique(input: BoundaryInput, a: Selection, b: Selection)
    requires ValidInput(input) && Wanted(input, a) && Wanted(input, b)
    ensures a == b
  {
    WholeTurnIff(input);
    if a.RetainFrom? && b.RetainFrom? && !(exists desired, r :: KeepsTurnWhole(input, desired, r)) {
      assert Best(input, a.sequence, b.sequence) && Best(input, b.sequence, a.sequence);
    }
  }

  /** Without a target the tail starts at the last candidate at or before the desired sequence, else at
      the first one after it. */
  lemma WithoutTarget(input: BoundaryInput, r: int)
    requires ValidInput(input) && input.desiredTokens <= 0 && r in Candidates(input)
    requires if r <= input.desiredRetainFrom
      then forall c :: c in Candidates(input) && c <= input.desiredRetainFrom ==> c <= r
      else forall c :: c in Candidates(input) ==> r <= c
    ensures Choice(input) == RetainFrom(r)
  {
    ChoiceIsWanted(input);
    assert Choice(input).RetainFrom? && BestCandidate(input, Choice(input).sequence);
    assert Best(input, Choice(input).sequence, r);
  }

  // ----- planning the checkpoint range -----

  datatype PlanInput = PlanInput(
    projectId: nat,
    agentId: nat,
    inputSequence: int,
    summarizedThrough: int,
    retainFrom: int,
    groups: seq<AtomicGroup>)

  datatype Plan = Plan(projectId: nat, agentId: nat, inputSequence: int, start: int, end: int)

  datatype PlanResult =
    | Planned(plan: Plan)
    | NothingToPlan
    | IdsRequired
    | WatermarkRequired
    | ExceedsWatermark
    | MalformedGroup(group: AtomicGroup)
    | SplitsGroup(group: AtomicGroup)

  /** rangesOverlap */
  predicate Overlap(aStart: int, aEnd: int, bStart: int, bEnd: int) {
    aStart <= bEnd && bStart <= aEnd
  }

  /** The first group that stops the plan start..end, if any. */
  function FirstObstacle(groups: seq<AtomicGroup>, start: int, end: int): PlanResult {
    if |groups| == 0 then NothingToPlan else
    var g := groups[0];
    if !WellFormedGroup(g) then MalformedGroup(g)
    else if !(start <= g.start && end >= g.end) && Overlap(start, end, g.start, g.end) then SplitsGroup(g)
    else FirstObstacle(groups[1..], start, end)
  }

  /** PlanCheckpoint */
  function PlanCheckpoint(input: PlanInput): PlanResult {
    var start := input.summarizedThrough + 1;
    var end := input.retainFrom - 1;
    if input.projectId == 0 || input.agentId == 0 then IdsRequired
    else if input.inputSequence <= 0 then WatermarkRequired
    else if input.retainFrom <= 1 || end < start then NothingToPlan
    else if end > input.inputSequence then ExceedsWatermark
    else
      var obstacle := FirstObstacle(input.groups, start, end);
      if obstacle.NothingToPlan? then Planned(Plan(input.projectId, input.agentId, input.inputSequence, start, end))
      else obstacle
  }

  /** The group lies inside the range or apart from it. */
  predicate Respected(g: AtomicGroup, start: int, end: int) {
    0 < g.start <= g.end && ((start <= g.start && g.end <= end) || g.end < start || end < g.start)
  }

  lemma {:induction false} NoObstacleMeans(groups: seq<AtomicGroup>, start: int, end: int)
    ensures FirstObstacle(groups, start, end).NothingToPlan? <==> forall g :: g in groups ==> Respected(g, start, end)
    ensures !FirstObstacle(groups, start, end).Planned?
  {
    if |groups| > 0 {
      NoObstacleMeans(groups[1..], start, end);
      assert groups == [groups[0]] + groups[1..];
      assert groups[0] in groups && forall g :: g in groups <==> g == groups[0] || g in groups[1..];
    }
  }

  /** A checkpoint is planned exactly when the ids and the watermark are given, the range from the last
      frontier to the retained tail is not empty and within the watermark, and every group lies inside
      it or apart from it; the plan is that range. */
  lemma PlannedIff(input: PlanInput)
    ensures PlanCheckpoint(input).Planned? <==>
      && input.projectId != 0 && input.agentId != 0 && 0 < input.inputSequence
      && 1 < input.retainFrom && input.summarizedThrough + 1 < input.retainFrom <= input.inputSequence + 1
      && forall g :: g in input.groups ==> Respected(g, input.summarizedThrough + 1, input.retainFrom - 1)
    ensures PlanCheckpoint(input).Planned? ==>
      PlanCheckpoint(input).plan ==
        Plan(input.projectId, input.agentId, input.inputSequence, input.summarizedThrough + 1, input.retainFrom - 1)
  {
    NoObstacleMeans(input.groups, input.summarizedThrough + 1, input.retainFrom - 1);
  }

  /** When the end of the range cuts no group, a group is split exactly when the previous
      frontier cuts it. */
  lemma {:induction false} ObstacleIsFrontierCut(groups: seq<AtomicGroup>, start: int, end: int)
    requires start <= end
    requires forall i :: 0 <= i < |groups| ==> WellFormedGroup(groups[i])
    requires !CutByAny(groups, end)
    ensures FirstObstacle(groups, start, end).NothingToPlan? <==> !CutByAny(groups, start - 1)
    ensures !FirstObstacle(groups, start, end).NothingToPlan? ==> FirstObstacle(groups, start, end).SplitsGroup?
  {
    if |groups| > 0 {
      assert groups == [groups[0]] + groups[1..];
      assert forall g :: g in groups[1..] ==> g in groups;
      ObstacleIsFrontierCut(groups[1..], start, end);
      assert groups[0] in groups;
    }
  }

  /** Every candidate of a valid boundary input plans, unless the previous frontier already
      cuts a group: then, and only then, the plan reports a split. */
  lemma CandidatePlans(input: BoundaryInput, plan: PlanInput)
    requires ValidInput(input)
    requires plan.projectId != 0 && plan.agentId != 0
    requires plan.retainFrom in Candidates(input)
    requires plan.summarizedThrough == input.sourceStart - 1 && plan.groups == input.groups
    requires input.maximumRetainFrom <= plan.inputSequence + 1
    ensures PlanCheckpoint(plan).Planned? <==> !CutByAny(input.groups, plan.summarizedThrough)
    ensures PlanCheckpoint(plan).SplitsGroup? <==> CutByAny(input.groups, plan.summarizedThrough)
    ensures PlanCheckpoint(plan).Planned? ==>
      PlanCheckpoint(plan).plan ==
        Plan(plan.projectId, plan.agentId, plan.inputSequence, input.sourceStart, plan.retainFrom - 1)
  {
    CandidatesMembers(input, plan.retainFrom);
    var end := plan.retainFrom - 1;
    SafeEndsMembers(input.events, input.events, input.groups, end);
    ObstacleIsFrontierCut(input.groups, input.sourceStart, end);
  }
}
