/** The durable state that decides which boundaries are safe: the event log and the tool calls,
    how the store lists atomic groups from it, and how it grows while a run is in flight. */
module Worlds {
  import opened Events
  import opened SourceEnds

  /** The tool calls issued by one event: their last result, None while one is missing. */
  datatype ToolGroup = ToolGroup(source: int, lastResult: Option<int>)

  datatype World = World(log: seq<Event>, tools: seq<ToolGroup>)

  // ----- ListCompactionAtomicGroups -----

  /** A group with a missing result reaches past the queried input sequence. */
  function ResultEnd(t: ToolGroup, input: int): int {
    if t.lastResult.None? then input + 1 else t.lastResult.value
  }

  function ToolListing(tools: seq<ToolGroup>, last: int, input: int): seq<AtomicGroup> {
    if |tools| == 0 then [] else
    var t := tools[|tools| - 1];
    ToolListing(tools[..|tools| - 1], last, input) +
    (if t.source <= input && (t.lastResult.None? || last < t.lastResult.value) && t.source < ResultEnd(t, input)
     then [AtomicGroup("tool_call_result", t.source, ResultEnd(t, input))] else [])
  }

  predicate IsOpening(e: Event, turn: TurnId) {
    e.opening && e.turn == turn
  }

  /** The turn's last opening event at or below the input sequence, 0 when there is none. */
  function LastOpening(log: seq<Event>, turn: TurnId, input: int): int {
    if |log| == 0 then 0 else
    var e := log[|log| - 1];
    if IsOpening(e, turn) && e.sequence <= input then e.sequence
    else LastOpening(log[..|log| - 1], turn, input)
  }

  predicate OpensTurn(log: seq<Event>, i: nat)
    requires i < |log|
  {
    log[i].opening && forall j :: 0 <= j < i ==> !IsOpening(log[j], log[i].turn)
  }

  /** One group for each of the first n events that opens a turn with more than one opening
      event in view. */
  function OpeningListing(log: seq<Event>, n: nat, last: int, input: int): seq<AtomicGroup>
    requires n <= |log|
  {
    if n == 0 then [] else
    var e := log[n - 1];
    var end := LastOpening(log, e.turn, input);
    OpeningListing(log, n - 1, last, input) +
    (if OpensTurn(log, n - 1) && e.sequence <= input && e.sequence < end && last < end
     then [AtomicGroup("turn_opening", e.sequence, end)] else [])
  }

  function ListAtomicGroups(w: World, last: int, input: int): seq<AtomicGroup> {
    ToolListing(w.tools, last, input) + OpeningListing(w.log, |w.log|, last, input)
  }

  // ----- what it means to cut -----

  /** Some tool call at or before s is answered after s, or not at all. */
  ghost predicate ToolCut(tools: seq<ToolGroup>, s: int) {
    exists k :: 0 <= k < |tools| && SpansTool(tools[k], s)
  }

  predicate SpansTool(t: ToolGroup, s: int) {
    t.source <= s && (t.lastResult.None? || s < t.lastResult.value)
  }

  /** Two opening events of one turn lie on the two sides of s, the later one within bound. */
  ghost predicate OpeningCut(log: seq<Event>, s: int, bound: int) {
    exists i, j :: 0 <= i < |log| && 0 <= j < |log| && SpansOpening(log[i], log[j], s, bound)
  }

  predicate SpansOpening(a: Event, b: Event, s: int, bound: int) {
    a.opening && b.opening && a.turn == b.turn && a.sequence <= s < b.sequence <= bound
  }

  lemma {:induction false} ToolListingCuts(tools: seq<ToolGroup>, last: int, input: int, s: int)
    requires last <= s <= input
    ensures CutByAny(ToolListing(tools, last, input), s) <==> ToolCut(tools, s)
  {
    if |tools| > 0 {
      var n := |tools| - 1;
      ToolListingCuts(tools[..n], last, input, s);
      var front := ToolListing(tools[..n], last, input);
      var all := ToolListing(tools, last, input);
      assert forall g :: g in front ==> g in all;
      if ToolCut(tools[..n], s) {
        var k :| 0 <= k < n && SpansTool(tools[..n][k], s);
        assert SpansTool(tools[k], s);
      }
      if SpansTool(tools[n], s) {
        assert all[|all| - 1] in all && Cuts(all[|all| - 1], s);
      } else if ToolCut(tools, s) {
        var k :| 0 <= k < |tools| && SpansTool(tools[k], s);
        assert tools[..n][k] == tools[k];
      }
    }
  }

  lemma {:induction false} LastOpeningMeans(log: seq<Event>, turn: TurnId, input: int)
    requires Ordered(log)
    ensures forall j :: 0 <= j < |log| && IsOpening(log[j], turn) && log[j].sequence <= input ==>
      log[j].sequence <= LastOpening(log, turn, input)
    ensures LastOpening(log, turn, input) == 0 ||
      exists j :: 0 <= j < |log| && IsOpening(log[j], turn) && log[j].sequence <= input &&
                  log[j].sequence == LastOpening(log, turn, input)
  {
    if |log| > 0 {
      var n := |log| - 1;
      FrontOrdered(log);
      if !(IsOpening(log[n], turn) && log[n].sequence <= input) {
        var front := log[..n];
        LastOpeningMeans(front, turn, input);
        forall j | 0 <= j < |log| && IsOpening(log[j], turn) && log[j].sequence <= input
          ensures log[j].sequence <= LastOpening(log, turn, input)
        {
          assert log[j] == front[j];
        }
        if LastOpening(front, turn, input) != 0 {
          var j :| 0 <= j < |front| && IsOpening(front[j], turn) && front[j].sequence <= input &&
                   front[j].sequence == LastOpening(front, turn, input);
          assert log[j] == front[j];
        }
      }
    }
  }

  lemma {:induction false} FirstOpeningExists(log: seq<Event>, i: nat) returns (first: nat)
    requires i < |log| && log[i].opening
    ensures first <= i && OpensTurn(log, first) && log[first].turn == log[i].turn
    decreases i
  {
    if OpensTurn(log, i) {
      first := i;
    } else {
      var j :| 0 <= j < i && IsOpening(log[j], log[i].turn);
      first := FirstOpeningExists(log, j);
    }
  }

  /** What the i-th event contributes to the listing of opening groups. */
  predicate ListsOpening(log: seq<Event>, i: nat, last: int, input: int, g: AtomicGroup)
    requires i < |log|
  {
    && OpensTurn(log, i) && log[i].sequence <= input
    && g == AtomicGroup("turn_opening", log[i].sequence, LastOpening(log, log[i].turn, input))
    && g.start < g.end && last < g.end
  }

  lemma {:induction false} OpeningListingMembers(log: seq<Event>, n: nat, last: int, input: int, g: AtomicGroup)
    requires n <= |log|
    ensures g in OpeningListing(log, n, last, input) <==>
      exists i :: 0 <= i < n && ListsOpening(log, i, last, input, g)
  {
    if n > 0 {
      OpeningListingMembers(log, n - 1, last, input, g);
      if g in OpeningListing(log, n, last, input) && g !in OpeningListing(log, n - 1, last, input) {
        assert ListsOpening(log, n - 1, last, input, g);
      }
      if i :| 0 <= i < n && ListsOpening(log, i, last, input, g) {
        assert i < n - 1 ==> g in OpeningListing(log, n - 1, last, input);
      }
    }
  }

  lemma OpeningListingCutsOnly(log: seq<Event>, last: int, input: int, s: int)
    requires Ordered(log) && CutByAny(OpeningListing(log, |log|, last, input), s)
    ensures OpeningCut(log, s, input)
  {
    var groups := OpeningListing(log, |log|, last, input);
    var g :| g in groups && Cuts(g, s);
    OpeningListingMembers(log, |log|, last, input, g);
    var i :| 0 <= i < |log| && ListsOpening(log, i, last, input, g);
    LastOpeningMeans(log, log[i].turn, input);
    Sequences(log, i, i);
    var j :| 0 <= j < |log| && IsOpening(log[j], log[i].turn) && log[j].sequence <= input && log[j].sequence == g.end;
    assert SpansOpening(log[i], log[j], s, input);
  }

  lemma OpeningListingCutsAll(log: seq<Event>, last: int, input: int, s: int)
    requires Ordered(log) && last <= s && OpeningCut(log, s, input)
    ensures CutByAny(OpeningListing(log, |log|, last, input), s)
  {
    var i, j :| 0 <= i < |log| && 0 <= j < |log| && SpansOpening(log[i], log[j], s, input);
    var first := FirstOpeningExists(log, i);
    LastOpeningMeans(log, log[first].turn, input);
    var g := AtomicGroup("turn_opening", log[first].sequence, LastOpening(log, log[first].turn, input));
    Sequences(log, first, i);
    assert IsOpening(log[j], log[first].turn);
    assert ListsOpening(log, first, last, input, g);
    OpeningListingMembers(log, |log|, last, input, g);
    assert Cuts(g, s);
  }

  lemma OpeningListingCuts(log: seq<Event>, last: int, input: int, s: int)
    requires Ordered(log) && last <= s
    ensures CutByAny(OpeningListing(log, |log|, last, input), s) <==> OpeningCut(log, s, input)
  {
    if CutByAny(OpeningListing(log, |log|, last, input), s) { OpeningListingCutsOnly(log, last, input, s); }
    if OpeningCut(log, s, input) { OpeningListingCutsAll(log, last, input, s); }
  }

  /** The listing for an input sequence cuts exactly the points that separate a tool call from
      a result, or two opening events of a turn that are both in view. */
  lemma ListingCuts(w: World, last: int, input: int, s: int)
    requires Ordered(w.log) && last <= s <= input
    ensures CutByAny(ListAtomicGroups(w, last, input), s) <==> ToolCut(w.tools, s) || OpeningCut(w.log, s, input)
  {
    var t, o := ToolListing(w.tools, last, input), OpeningListing(w.log, |w.log|, last, input);
    ToolListingCuts(w.tools, last, input, s);
    OpeningListingCuts(w.log, last, input, s);
    assert forall g :: g in t + o <==> g in t || g in o;
  }

  lemma {:induction false} ToolListingCutsOnly(tools: seq<ToolGroup>, last: int, input: int, s: int)
    requires CutByAny(ToolListing(tools, last, input), s)
    ensures ToolCut(tools, s)
  {
    var n := |tools| - 1;
    var front := ToolListing(tools[..n], last, input);
    if CutByAny(front, s) {
      ToolListingCutsOnly(tools[..n], last, input, s);
      var k :| 0 <= k < n && SpansTool(tools[..n][k], s);
      assert SpansTool(tools[k], s);
    } else {
      var g :| g in ToolListing(tools, last, input) && Cuts(g, s);
      assert g !in front;
      assert SpansTool(tools[n], s);
    }
  }

  /** Whatever the query, a listed group is cut only where a tool call is separated from a result,
      or two opening events of a turn. */
  lemma ListedCutIsReal(w: World, last: int, input: int, s: int)
    requires Ordered(w.log) && CutByAny(ListAtomicGroups(w, last, input), s)
    ensures ToolCut(w.tools, s) || OpeningCut(w.log, s, input)
  {
    var t, o := ToolListing(w.tools, last, input), OpeningListing(w.log, |w.log|, last, input);
    var g :| g in t + o && Cuts(g, s);
    if g in t {
      ToolListingCutsOnly(w.tools, last, input, s);
    } else {
      assert g in o;
      OpeningListingCutsOnly(w.log, last, input, s);
    }
  }

  // ----- safe boundaries of a world -----

  /** The step that the event ends is settled by the watermark. */
  ghost predicate SettledBy(log: seq<Event>, watermark: int, e: Event) {
    match e.kind
    case ModelOutput => true
    case ToolResult => true
    case AgentInput => exists k :: 0 <= k < |log| && Answers(log[k], e, watermark)
    case _ => false
  }

  predicate Answers(output: Event, e: Event, watermark: int) {
    IsOutputOf(output, e.turn) && e.sequence < output.sequence <= watermark
  }

  ghost predicate SafeEvent(w: World, watermark: int, bound: int, e: Event) {
    && HasModelSemantics(e) && SettledBy(w.log, watermark, e)
    && !ToolCut(w.tools, e.sequence) && !OpeningCut(w.log, e.sequence, bound)
  }

  /** A boundary after s is safe when opening events are in view up to bound. */
  ghost predicate SafeWithin(w: World, watermark: int, bound: int, s: int) {
    exists i :: 0 <= i < |w.log| && w.log[i].sequence == s && SafeEvent(w, watermark, bound, w.log[i])
  }

  /** Safe with every opening event in view. */
  ghost predicate Safe(w: World, watermark: int, s: int) {
    SafeWithin(w, watermark, Last(w.log), s)
  }

  /** The safe ends that planner.go computes for a source range, with the evidence up to the
      watermark and the groups listed for the range, are the safe boundaries of the world. */
  lemma RangeSafeEvent(w: World, start: int, end: int, watermark: int, e: Event)
    requires Ordered(w.log) && 0 < start && end <= watermark
    requires start <= e.sequence <= end
    ensures IsSafeEnd(e, Range(w.log, start, watermark), ListAtomicGroups(w, start - 1, end)) <==>
      SafeEvent(w, watermark, end, e)
  {
    ListingCuts(w, start - 1, end, e.sequence);
    var evidence := Range(w.log, start, watermark);
    RangeOrdered(w.log, start, watermark);
    LatestModelOutputMeans(evidence, e.turn, e.sequence);
    AnsweredInRange(w.log, start, watermark, e);
  }

  lemma AnsweredInRange(log: seq<Event>, start: int, watermark: int, e: Event)
    requires Ordered(log) && start <= e.sequence
    ensures AnsweredAfter(Range(log, start, watermark), e.turn, e.sequence) <==>
      exists k :: 0 <= k < |log| && Answers(log[k], e, watermark)
  {
    var evidence := Range(log, start, watermark);
    RangeOrdered(log, start, watermark);
    if k :| 0 <= k < |evidence| && IsOutputOf(evidence[k], e.turn) && e.sequence < evidence[k].sequence {
      assert Answers(log[k + UpTo(log, start - 1)], e, watermark);
    }
    if k :| 0 <= k < |log| && Answers(log[k], e, watermark) {
      RangeComplete(log, start, watermark, k);
    }
  }

  /** The safe ends of the source range start..end. */
  ghost function RangeEnds(w: World, start: int, end: int, watermark: int): seq<int> {
    SafeEnds(Range(w.log, start, end), Range(w.log, start, watermark), ListAtomicGroups(w, start - 1, end))
  }

  lemma RangeEndsMembers(w: World, start: int, end: int, watermark: int, s: int)
    requires Ordered(w.log) && 0 < start && end <= watermark
    ensures s in RangeEnds(w, start, end, watermark) <==> start <= s <= end && SafeWithin(w, watermark, end, s)
  {
    SafeEndsMembers(Range(w.log, start, end), Range(w.log, start, watermark), ListAtomicGroups(w, start - 1, end), s);
    if s in RangeEnds(w, start, end, watermark) {
      RangeEndIsSafe(w, start, end, watermark, s);
    }
    if start <= s <= end && SafeWithin(w, watermark, end, s) {
      SafeIsRangeEnd(w, start, end, watermark, s);
    }
  }

  lemma RangeEndIsSafe(w: World, start: int, end: int, watermark: int, s: int)
    requires Ordered(w.log) && 0 < start && end <= watermark
    requires s in RangeEnds(w, start, end, watermark)
    ensures start <= s <= end && SafeWithin(w, watermark, end, s)
  {
    var source := Range(w.log, start, end);
    var evidence, groups := Range(w.log, start, watermark), ListAtomicGroups(w, start - 1, end);
    SafeEndsMembers(source, evidence, groups, s);
    var i :| 0 <= i < |source| && source[i].sequence == s && IsSafeEnd(source[i], evidence, groups);
    assert start <= s <= end by { RangeOrdered(w.log, start, end); }
    assert source[i] == w.log[i + UpTo(w.log, start - 1)];
    RangeSafeEvent(w, start, end, watermark, source[i]);
  }

  lemma SafeIsRangeEnd(w: World, start: int, end: int, watermark: int, s: int)
    requires Ordered(w.log) && 0 < start && end <= watermark
    requires start <= s <= end && SafeWithin(w, watermark, end, s)
    ensures s in RangeEnds(w, start, end, watermark)
  {
    var source := Range(w.log, start, end);
    var evidence, groups := Range(w.log, start, watermark), ListAtomicGroups(w, start - 1, end);
    var i :| 0 <= i < |w.log| && w.log[i].sequence == s && SafeEvent(w, watermark, end, w.log[i]);
    assert source[i - UpTo(w.log, start - 1)] == w.log[i] by { RangeComplete(w.log, start, end, i); }
    RangeSafeEvent(w, start, end, watermark, w.log[i]);
    SafeEndsMembers(source, evidence, groups, s);
  }

  // ----- shrinking a source -----

  lemma OpeningCutAfterShrink(log: seq<Event>, end: int, smaller: int, s: int)
    requires !OpeningCut(log, smaller, end) && s <= smaller <= end
    ensures OpeningCut(log, s, smaller) <==> OpeningCut(log, s, end)
  {
    if i, j :| 0 <= i < |log| && 0 <= j < |log| && SpansOpening(log[i], log[j], s, end) {
      assert !SpansOpening(log[i], log[j], smaller, end);
      assert SpansOpening(log[i], log[j], s, smaller);
    }
    if i, j :| 0 <= i < |log| && 0 <= j < |log| && SpansOpening(log[i], log[j], s, smaller) {
      assert SpansOpening(log[i], log[j], s, end);
    }
  }

  /** After moving the end of the source to a safe end, the safe ends up to there stay the same. */
  lemma SafeAfterShrink(w: World, watermark: int, end: int, smaller: int, s: int)
    requires SafeWithin(w, watermark, end, smaller) && s <= smaller <= end
    ensures SafeWithin(w, watermark, smaller, s) <==> SafeWithin(w, watermark, end, s)
  {
    OpeningCutAfterShrink(w.log, end, smaller, s);
  }

  /** A boundary that a run with source end `end` takes for safe is safe unless it separates
      opening events of a turn that `end` itself separates: the listing hides the opening
      events past the source end. */
  lemma SafeUnlessEndCutsOpening(w: World, watermark: int, end: int, s: int)
    requires Ordered(w.log) && s <= end
    ensures Safe(w, watermark, s) ==> SafeWithin(w, watermark, end, s)
    ensures SafeWithin(w, watermark, end, s) && !Safe(w, watermark, s) ==>
      OpeningCut(w.log, s, Last(w.log)) && OpeningCut(w.log, end, Last(w.log))
  {
    if OpeningCut(w.log, s, end) {
      var i, j :| 0 <= i < |w.log| && 0 <= j < |w.log| && SpansOpening(w.log[i], w.log[j], s, end);
      Sequences(w.log, j, j);
      assert SpansOpening(w.log[i], w.log[j], s, Last(w.log));
    }
    if OpeningCut(w.log, s, Last(w.log)) && !OpeningCut(w.log, s, end) {
      var i, j :| 0 <= i < |w.log| && 0 <= j < |w.log| && SpansOpening(w.log[i], w.log[j], s, Last(w.log));
      assert SpansOpening(w.log[i], w.log[j], end, Last(w.log));
    }
  }

  // ----- growth -----

  /** What concurrent work may add: events at the end of the log, results for open tool calls,
      new tool calls, and opening events only for turns that had none (a turn's opening events
      are appended in one transaction under a fresh turn id). */
  predicate Extends(w: World, w': World) {
    && Ordered(w'.log) && w.log <= w'.log
    && |w.tools| <= |w'.tools|
    && ToolsGrow(w.tools, w'.tools, |w'.tools|, Last(w.log))
    && OpeningsFresh(w'.log, |w.log|, |w'.log|)
  }

  predicate SameOpening(a: Event, b: Event) {
    a.opening && b.opening && a.turn == b.turn
  }

  predicate ToolGrows(t: ToolGroup, t': ToolGroup, last: int) {
    t'.source == t.source &&
    (t' == t || (t.lastResult.None? && t'.lastResult.Some? && last < t'.lastResult.value))
  }

  predicate ToolsGrow(tools: seq<ToolGroup>, tools': seq<ToolGroup>, n: nat, last: int)
    requires n <= |tools'|
  {
    n == 0 ||
    (ToolsGrow(tools, tools', n - 1, last) &&
     if n <= |tools| then ToolGrows(tools[n - 1], tools'[n - 1], last) else last < tools'[n - 1].source)
  }

  /** No event from position m on opens a turn that an event before m opened. */
  predicate OpeningsFresh(log: seq<Event>, m: nat, n: nat)
    requires n <= |log|
  {
    n <= m ||
    (OpeningsFresh(log, m, n - 1) && forall i :: 0 <= i < m ==> !SameOpening(log[i], log[n - 1]))
  }

  lemma {:induction false} ToolsGrowMeans(tools: seq<ToolGroup>, tools': seq<ToolGroup>, n: nat, last: int)
    requires n <= |tools'|
    ensures ToolsGrow(tools, tools', n, last) <==>
      && (forall k :: 0 <= k < n && k < |tools| ==> ToolGrows(tools[k], tools'[k], last))
      && (forall k :: 0 <= k < n && |tools| <= k ==> last < tools'[k].source)
  {
    if n > 0 {
      ToolsGrowMeans(tools, tools', n - 1, last);
    }
  }

  lemma {:induction false} OpeningsFreshMeans(log: seq<Event>, m: nat, n: nat)
    requires n <= |log|
    ensures OpeningsFresh(log, m, n) <==> forall i, j :: 0 <= i < m <= j < n ==> !SameOpening(log[i], log[j])
  {
    if m < n {
      OpeningsFreshMeans(log, m, n - 1);
    }
  }

  lemma ToolCutStable(w: World, w': World, s: int)
    requires Extends(w, w') && s <= Last(w.log)
    ensures ToolCut(w.tools, s) <==> ToolCut(w'.tools, s)
  {
    ToolsGrowMeans(w.tools, w'.tools, |w'.tools|, Last(w.log));
    if k :| 0 <= k < |w.tools| && SpansTool(w.tools[k], s) {
      assert ToolGrows(w.tools[k], w'.tools[k], Last(w.log));
      assert SpansTool(w'.tools[k], s);
    }
    if k :| 0 <= k < |w'.tools| && SpansTool(w'.tools[k], s) {
      if k < |w.tools| {
        assert ToolGrows(w.tools[k], w'.tools[k], Last(w.log));
        assert SpansTool(w.tools[k], s);
      }
    }
  }

  lemma OpeningCutStable(w: World, w': World, s: int, bound: int, bound': int)
    requires Extends(w, w') && s <= Last(w.log)
    requires bound == bound' || (bound == Last(w.log) && bound' == Last(w'.log))
    ensures OpeningCut(w.log, s, bound) <==> OpeningCut(w'.log, s, bound')
  {
    OpeningsFreshMeans(w'.log, |w.log|, |w'.log|);
    PrefixOrdered(w.log, w'.log);
    if i, j :| 0 <= i < |w.log| && 0 <= j < |w.log| && SpansOpening(w.log[i], w.log[j], s, bound) {
      assert w'.log[i] == w.log[i] && w'.log[j] == w.log[j];
      assert SpansOpening(w'.log[i], w'.log[j], s, bound');
    }
    if i, j :| 0 <= i < |w'.log| && 0 <= j < |w'.log| && SpansOpening(w'.log[i], w'.log[j], s, bound') {
      assert i < |w.log|;
      assert j < |w.log| by {
        assert SameOpening(w'.log[i], w'.log[j]);
      }
      assert w'.log[i] == w.log[i] && w'.log[j] == w.log[j];
      Sequences(w.log, j, j);
      assert SpansOpening(w.log[i], w.log[j], s, bound);
    }
  }

  lemma SettledStable(w: World, w': World, watermark: int, e: Event)
    requires Extends(w, w') && watermark <= Last(w.log)
    ensures SettledBy(w.log, watermark, e) <==> SettledBy(w'.log, watermark, e)
  {
    PrefixOrdered(w.log, w'.log);
    if k :| 0 <= k < |w.log| && Answers(w.log[k], e, watermark) {
      assert Answers(w'.log[k], e, watermark);
    }
    if k :| 0 <= k < |w'.log| && Answers(w'.log[k], e, watermark) {
      assert w'.log[k] == w.log[k];
    }
  }

  /** Growth changes no verdict at or below a durable watermark, in either direction. */
  lemma SafeStable(w: World, w': World, watermark: int, bound: int, bound': int, s: int)
    requires Extends(w, w') && s <= watermark <= Last(w.log)
    requires bound == bound' || (bound == Last(w.log) && bound' == Last(w'.log))
    ensures SafeWithin(w, watermark, bound, s) <==> SafeWithin(w', watermark, bound', s)
  {
    ToolCutStable(w, w', s);
    OpeningCutStable(w, w', s, bound, bound');
    if i :| 0 <= i < |w.log| && w.log[i].sequence == s && SafeEvent(w, watermark, bound, w.log[i]) {
      SettledStable(w, w', watermark, w.log[i]);
      assert w'.log[i] == w.log[i];
    }
    if i :| 0 <= i < |w'.log| && w'.log[i].sequence == s && SafeEvent(w', watermark, bound', w'.log[i]) {
      PrefixOrdered(w.log, w'.log);
      assert w'.log[i] == w.log[i];
      SettledStable(w, w', watermark, w.log[i]);
    }
  }

  lemma ExtendsReflexive(w: World)
    requires Ordered(w.log)
    ensures Extends(w, w)
  {
    ToolsGrowMeans(w.tools, w.tools, |w.tools|, Last(w.log));
  }

  lemma ExtendsTransitive(a: World, b: World, c: World)
    requires Extends(a, b) && Extends(b, c)
    ensures Extends(a, c)
  {
    PrefixOrdered(a.log, b.log);
    ToolsGrowTransitive(a, b, c);
    OpeningsFreshTransitive(a, b, c);
  }

  lemma ToolsGrowTransitive(a: World, b: World, c: World)
    requires Extends(a, b) && Extends(b, c) && Last(a.log) <= Last(b.log)
    ensures ToolsGrow(a.tools, c.tools, |c.tools|, Last(a.log))
  {
    ToolsGrowMeans(a.tools, b.tools, |b.tools|, Last(a.log));
    ToolsGrowMeans(b.tools, c.tools, |c.tools|, Last(b.log));
    forall k | 0 <= k < |c.tools| && k < |a.tools| ensures ToolGrows(a.tools[k], c.tools[k], Last(a.log)) {
      assert ToolGrows(a.tools[k], b.tools[k], Last(a.log)) && ToolGrows(b.tools[k], c.tools[k], Last(b.log));
    }
    forall k | 0 <= k < |c.tools| && |a.tools| <= k ensures Last(a.log) < c.tools[k].source {
      if k < |b.tools| { assert ToolGrows(b.tools[k], c.tools[k], Last(b.log)); }
    }
    ToolsGrowMeans(a.tools, c.tools, |c.tools|, Last(a.log));
  }

  lemma OpeningsFreshTransitive(a: World, b: World, c: World)
    requires Extends(a, b) && Extends(b, c)
    ensures OpeningsFresh(c.log, |a.log|, |c.log|)
  {
    OpeningsFreshMeans(b.log, |a.log|, |b.log|);
    OpeningsFreshMeans(c.log, |b.log|, |c.log|);
    forall i, j | 0 <= i < |a.log| <= j < |c.log| ensures !SameOpening(c.log[i], c.log[j]) {
      assert b.log[i] == c.log[i];
      if j < |b.log| { assert b.log[j] == c.log[j]; }
    }
    OpeningsFreshMeans(c.log, |a.log|, |c.log|);
  }

  /** Appending an event that opens nothing is growth. */
  lemma AppendExtends(w: World, e: Event)
    requires Ordered(w.log) && Last(w.log) < e.sequence && !e.opening
    ensures Extends(w, World(w.log + [e], w.tools))
  {
    var log' := w.log + [e];
    assert log'[..|w.log|] == w.log;
    OrderedMeans(w.log, |w.log|);
    OrderedMeans(log', |log'|);
    ToolsGrowMeans(w.tools, w.tools, |w.tools|, Last(w.log));
    OpeningsFreshMeans(log', |w.log|, |log'|);
  }
}
