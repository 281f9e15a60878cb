/** Durable agent events as context compaction reads them, and the ordered event log.

    Event sequences are unbounded integers here; the store keeps them in 64-bit columns and
    never gets near the limit.  An event's rendering is abstract: the text that one event
    contributes to the summary source, or None when reducing its tool output fails.  */
module Events {

  datatype Option<+T> = None | Some(value: T)

  /** A turn identity; NIL_TURN stands for the all-zero uuid. */
  type TurnId = nat
  const NIL_TURN: TurnId := 0

  datatype Kind = ModelOutput | ToolResult | AgentInput | ContextCheckpoint | OtherKind(name: string)

  /** Raw content parts: their size, and how many JSON array elements they parse into
      (None when the bytes are not a JSON array). */
  datatype Content = Content(bytes: nat, parts: Option<nat>)

  datatype Event = Event(
    sequence: int,
    turn: TurnId,
    opening: bool,
    kind: Kind,
    toolName: string,
    providerCallId: string,
    toolOutcome: string,
    content: Content,
    rendering: Option<string>)

  /** compactionEventHasModelSemantics: does the event contribute anything a model can see? */
  predicate HasModelSemantics(e: Event) {
    if e.kind == ContextCheckpoint then false
    else if e.toolName != "" || e.providerCallId != "" || e.toolOutcome != "" then true
    else if e.content.parts.None? then true
    else e.content.parts.value > 0
  }

  /** Invisible to a model are exactly the checkpoint events, and the events without a tool name, call
      or outcome whose content is an empty array. */
  lemma InvisibleMeans(e: Event)
    ensures !HasModelSemantics(e) <==>
      || e.kind == ContextCheckpoint
      || (e.toolName == e.providerCallId == e.toolOutcome == "" && e.content.parts == Some(0))
  {
  }

  /** EstimateSourceEventTokens */
  function EventTokens(e: Event): nat {
    e.content.bytes / 4 + 1
  }

  lemma EventTokensMean(e: Event)
    ensures 4 * (EventTokens(e) - 1) <= e.content.bytes < 4 * EventTokens(e)
  {
  }

  /** Sequences are positive and strictly ascending. */
  predicate Ordered(events: seq<Event>) {
    OrderedTo(events, |events|)
  }

  predicate OrderedTo(events: seq<Event>, n: nat)
    requires n <= |events|
  {
    n == 0 ||
    (OrderedTo(events, n - 1) && (if n == 1 then 0 else events[n - 2].sequence) < events[n - 1].sequence)
  }

  ghost predicate Ascends(events: seq<Event>, n: nat)
    requires n <= |events|
  {
    && (forall i :: 0 <= i < n ==> 0 < events[i].sequence)
    && (forall i, j :: 0 <= i < j < n ==> events[i].sequence < events[j].sequence)
  }

  lemma {:induction false} OrderedMeans(events: seq<Event>, n: nat)
    requires n <= |events|
    ensures OrderedTo(events, n) <==> Ascends(events, n)
  {
    if n > 0 {
      OrderedMeans(events, n - 1);
    }
  }

  lemma FrontOrdered(events: seq<Event>)
    requires Ordered(events) && |events| > 0
    ensures Ordered(events[..|events| - 1])
    ensures Last(events[..|events| - 1]) < Last(events) && 0 < Last(events)
    ensures forall i :: 0 <= i < |events| - 1 ==> events[i].sequence < Last(events)
  {
    OrderedMeans(events, |events|);
    OrderedMeans(events[..|events| - 1], |events| - 1);
  }

  /** Sequence of the last event, 0 for the empty log. */
  function Last(log: seq<Event>): int {
    if |log| == 0 then 0 else log[|log| - 1].sequence
  }

  lemma Sequences(log: seq<Event>, i: nat, j: nat)
    requires Ordered(log) && i <= j < |log|
    ensures 0 < log[i].sequence <= log[j].sequence <= Last(log)
    ensures i < j ==> log[i].sequence < log[j].sequence
  {
    OrderedMeans(log, |log|);
  }

  /** How many events of the log have a sequence of at most s. */
  function UpTo(log: seq<Event>, s: int): nat {
    ScanDown(log, s, |log|)
  }

  /** The scan for UpTo, going down from position n. */
  function ScanDown(log: seq<Event>, s: int, n: nat): (m: nat)
    requires n <= |log|
    ensures m <= n
    ensures m < n ==> s < log[m].sequence
    ensures 0 < m ==> log[m - 1].sequence <= s
  {
    if n == 0 || log[n - 1].sequence <= s then n else ScanDown(log, s, n - 1)
  }

  lemma UpToSplits(log: seq<Event>, s: int)
    requires Ordered(log)
    ensures forall i :: 0 <= i < UpTo(log, s) ==> log[i].sequence <= s
    ensures forall i :: UpTo(log, s) <= i < |log| ==> s < log[i].sequence
  {
    OrderedMeans(log, |log|);
  }

  lemma UpToUnique(log: seq<Event>, s: int, n: nat)
    requires Ordered(log) && n <= |log|
    requires forall i :: 0 <= i < n ==> log[i].sequence <= s
    requires forall i :: n <= i < |log| ==> s < log[i].sequence
    ensures UpTo(log, s) == n
  {
    UpToSplits(log, s);
  }

  /** A position is determined by its two neighbours. */
  lemma UpToIs(log: seq<Event>, s: int, n: nat)
    requires Ordered(log) && n <= |log|
    requires 0 < n ==> log[n - 1].sequence <= s
    requires n < |log| ==> s < log[n].sequence
    ensures UpTo(log, s) == n
  {
    OrderedMeans(log, |log|);
    UpToUnique(log, s, n);
  }

  lemma UpToMonotone(log: seq<Event>, s: int, t: int)
    requires Ordered(log) && s <= t
    ensures UpTo(log, s) <= UpTo(log, t)
  {
    UpToSplits(log, s);
  }

  /** The events with lo <= sequence <= hi. */
  function Range(log: seq<Event>, lo: int, hi: int): seq<Event> {
    var from := UpTo(log, lo - 1);
    var to := UpTo(log, hi);
    if from <= to then log[from..to] else []
  }

  lemma SliceOrdered(log: seq<Event>, from: nat, to: nat)
    requires Ordered(log) && from <= to <= |log|
    ensures Ordered(log[from..to])
  {
    OrderedMeans(log, |log|);
    OrderedMeans(log[from..to], to - from);
  }

  lemma RangeOrdered(log: seq<Event>, lo: int, hi: int)
    requires Ordered(log)
    ensures Ordered(Range(log, lo, hi))
    ensures forall i :: 0 <= i < |Range(log, lo, hi)| ==> lo <= Range(log, lo, hi)[i].sequence <= hi
  {
    var from, to := UpTo(log, lo - 1), UpTo(log, hi);
    if from <= to {
      SliceOrdered(log, from, to);
      UpToSplits(log, lo - 1);
      UpToSplits(log, hi);
      assert forall i :: 0 <= i < to - from ==> log[from..to][i] == log[from + i];
    }
  }

  /** Every event of the log inside the bounds is in the range. */
  lemma RangeComplete(log: seq<Event>, lo: int, hi: int, i: nat)
    requires Ordered(log) && i < |log| && lo <= log[i].sequence <= hi
    ensures UpTo(log, lo - 1) <= i < UpTo(log, hi)
    ensures Range(log, lo, hi)[i - UpTo(log, lo - 1)] == log[i]
  {
    UpToSplits(log, lo - 1);
    UpToSplits(log, hi);
  }

  lemma RangeEmpty(log: seq<Event>, lo: int, hi: int)
    requires Ordered(log) && hi < lo
    ensures Range(log, lo, hi) == []
  {
    RangeOrdered(log, lo, hi);
    if Range(log, lo, hi) != [] { assert false; }
  }

  /** Every sequence from lo to hi is present. */
  predicate Closed(events: seq<Event>, lo: int, hi: int) {
    |events| == hi - lo + 1 && forall i :: 0 <= i < |events| ==> events[i].sequence == lo + i
  }

  lemma PrefixOrdered(log: seq<Event>, log': seq<Event>)
    requires Ordered(log') && log <= log'
    ensures Ordered(log) && Last(log) <= Last(log')
    ensures forall i :: |log| <= i < |log'| ==> Last(log) < log'[i].sequence
  {
    assert forall i :: 0 <= i < |log| ==> log[i] == log'[i];
    OrderedMeans(log', |log'|);
    OrderedMeans(log, |log|);
  }

  /** Growing the log does not move a position below its last sequence. */
  lemma UpToAppend(log: seq<Event>, log': seq<Event>, s: int)
    requires Ordered(log') && log <= log'
    requires s <= Last(log)
    ensures UpTo(log, s) == UpTo(log', s)
  {
    PrefixOrdered(log, log');
    UpToSplits(log, s);
    assert forall i :: 0 <= i < |log| ==> log[i] == log'[i];
    UpToUnique(log', s, UpTo(log, s));
  }

  lemma SliceOfPrefix<T>(a: seq<T>, b: seq<T>, i: nat, j: nat)
    requires a <= b && i <= j <= |a|
    ensures a[i..j] == b[i..j]
  {
  }

  /** A range whose upper end is durable does not change when the log grows. */
  lemma RangeStable(log: seq<Event>, log': seq<Event>, lo: int, hi: int)
    requires Ordered(log') && log <= log'
    requires hi <= Last(log)
    ensures Range(log', lo, hi) == Range(log, lo, hi)
  {
    assert Ordered(log) by { PrefixOrdered(log, log'); }
    if hi < lo {
      RangeEmpty(log, lo, hi);
      RangeEmpty(log', lo, hi);
    } else {
      RangeStableNonempty(log, log', lo, hi);
    }
  }

  lemma RangeStableNonempty(log: seq<Event>, log': seq<Event>, lo: int, hi: int)
    requires Ordered(log) && Ordered(log') && log <= log'
    requires lo <= hi <= Last(log)
    ensures Range(log', lo, hi) == Range(log, lo, hi)
  {
    var from, to := UpTo(log, lo - 1), UpTo(log, hi);
    assert from == UpTo(log', lo - 1) by { UpToAppend(log, log', lo - 1); }
    assert to == UpTo(log', hi) by { UpToAppend(log, log', hi); }
    assert from <= to by { UpToMonotone(log, lo - 1, hi); }
    assert log[from..to] == log'[from..to] by { SliceOfPrefix(log, log', from, to); }
  }

  /** A closed range is durable up to its upper end. */
  lemma ClosedIsDurable(log: seq<Event>, lo: int, hi: int)
    requires Ordered(log) && lo <= hi && Closed(Range(log, lo, hi), lo, hi)
    ensures hi <= Last(log)
  {
    var to := UpTo(log, hi);
    var r := Range(log, lo, hi);
    assert r[|r| - 1] == log[to - 1];
    OrderedMeans(log, |log|);
    assert to < |log| ==> log[to - 1].sequence < log[|log| - 1].sequence;
  }

  // ----- rendering -----

  /** renderEventSource: the renderings of the events a model can see, one after the other. */
  function Render(events: seq<Event>): Option<string> {
    if |events| == 0 then Some("") else
    var n := |events| - 1;
    var front := Render(events[..n]);
    if front.None? then None
    else if !HasModelSemantics(events[n]) then front
    else if events[n].rendering.None? then None
    else Some(front.value + events[n].rendering.value)
  }

  /** What one event contributes: nothing when no model can see it. */
  function RenderOne(e: Event): Option<string> {
    if HasModelSemantics(e) then e.rendering else Some("")
  }

  /** Rendering a single event, and rendering two pieces one after the other, in order. */
  lemma {:induction false} RenderConcat(a: seq<Event>, b: seq<Event>)
    ensures Render(a + b) ==
      if Render(a).Some? && Render(b).Some? then Some(Render(a).value + Render(b).value) else None
    ensures |b| == 1 ==> Render(b) == RenderOne(b[0])
  {
    if |b| == 0 {
      assert a + b == a;
      assert Render(a).Some? ==> Render(a).value + "" == Render(a).value;
    } else {
      var n := |b| - 1;
      assert (a + b)[..|a + b| - 1] == a + b[..n];
      assert n == 0 ==> b[..n] == [];
      RenderConcat(a, b[..n]);
      if Render(b).Some? && HasModelSemantics(b[n]) {
        var y, z := Render(b[..n]).value, b[n].rendering.value;
        assert "" + z == z;
        assert Render(a).Some? ==> Render(a).value + y + z == Render(a).value + (y + z);
      }
    }
  }
}
