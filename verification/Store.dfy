/** The execution store as the compaction runner uses it, and the runner's paged reads.

    Every call may observe work that other transactions committed since the previous call
    (Interfere), and every call may fail. */
module Store {
  import opened Events
  import opened SourceEnds
  import opened Worlds

  datatype Checkpoint = Checkpoint(start: int, end: int, watermark: int, eventSequence: int, summary: string)

  /** No checkpoint was published at this watermark, nor for a source with this end: the database
      holds both unique. */
  predicate Unpublished(checkpoints: seq<Checkpoint>, watermark: int, end: int) {
    forall i :: 0 <= i < |checkpoints| ==> checkpoints[i].watermark != watermark && checkpoints[i].end != end
  }

  /** What the store says to a checkpoint: it is accepted, its boundary is found unsafe, or it is
      refused for another reason. */
  datatype Publication = Accepts | FindsUnsafe | Refuses

  datatype PublishResult = Published(checkpoint: Checkpoint) | BoundaryUnsafe | PublishRefused

  datatype PageResult = Page(events: seq<Event>) | PageFailed

  datatype LoadResult = Loaded(events: seq<Event>) | NotClosed | LoadFailed

  datatype Answer = Known(value: bool) | AnswerFailed

  function MinNat(a: nat, b: nat): nat { if a < b then a else b }

  /** ListCompactionSourceEvents: events after a sequence, ascending, at most limit. */
  function PageAfter(log: seq<Event>, after: int, limit: nat): seq<Event> {
    var from := UpTo(log, after);
    log[from..MinNat(|log|, from + limit)]
  }

  /** Some event satisfies p. */
  predicate Any(events: seq<Event>, p: Event -> bool) {
    |events| > 0 && (p(events[|events| - 1]) || Any(events[..|events| - 1], p))
  }

  lemma {:induction false} AnyMeans(events: seq<Event>, p: Event -> bool)
    ensures Any(events, p) <==> exists i :: 0 <= i < |events| && p(events[i])
  {
    if |events| > 0 {
      var front := events[..|events| - 1];
      AnyMeans(front, p);
      if i :| 0 <= i < |front| && p(front[i]) {
        assert p(events[i]);
      }
      if i :| 0 <= i < |events| && p(events[i]) {
        assert i < |front| ==> p(front[i]);
      }
    }
  }

  lemma {:induction false} AnyConcat(a: seq<Event>, b: seq<Event>, p: Event -> bool)
    ensures Any(a + b, p) <==> Any(a, p) || Any(b, p)
  {
    if |b| == 0 {
      assert a + b == a;
    } else {
      var front := b[..|b| - 1];
      assert (a + b)[..|a + b| - 1] == a + front;
      AnyConcat(a, front, p);
    }
  }

  lemma AnyFound(events: seq<Event>, p: Event -> bool, e: Event)
    requires e in events && p(e)
    ensures Any(events, p)
  {
    AnyMeans(events, p);
  }

  predicate IsOutput(e: Event) {
    e.kind == ModelOutput
  }

  /** Unanswered: no model output after the opening event, up to the watermark. */
  ghost predicate Unanswered(log: seq<Event>, opening: int, watermark: int) {
    !Any(Range(log, opening + 1, watermark), IsOutput)
  }

  /** A later compaction step may still summarise the event. */
  function Summarizable(protectOpening: bool, opening: int): Event -> bool {
    (e: Event) => !(protectOpening && e.sequence >= opening) && HasModelSemantics(e)
  }

  /** Some model output among the events comes after the opening event. */
  predicate AnsweredIn(events: seq<Event>, opening: int) {
    exists e :: e in events && e.sequence > opening && IsOutput(e)
  }

  /** OpeningEventsRequireVerbatimRetention, as the planner asks it of the events it holds. */
  method OpeningEventsRequireVerbatimRetention(events: seq<Event>, opening: int) returns (retain: bool)
    ensures retain <==> !AnsweredIn(events, opening)
  {
    for i := 0 to |events|
      invariant forall j :: 0 <= j < i ==> !(events[j].sequence > opening && IsOutput(events[j]))
    {
      if events[i].sequence > opening && events[i].kind == ModelOutput {
        return false;
      }
    }
    return true;
  }

  lemma RangeIndex(log: seq<Event>, lo: int, hi: int, i: nat)
    requires Ordered(log) && i < |Range(log, lo, hi)|
    ensures UpTo(log, lo - 1) + i < |log| && Range(log, lo, hi)[i] == log[UpTo(log, lo - 1) + i]
    ensures lo <= Range(log, lo, hi)[i].sequence <= hi
  {
    RangeOrdered(log, lo, hi);
  }

  lemma RangeMember(log: seq<Event>, lo: int, lo': int, hi: int, e: Event)
    requires Ordered(log) && e in Range(log, lo, hi) && lo' <= e.sequence
    ensures e in Range(log, lo', hi)
  {
    var i :| 0 <= i < |Range(log, lo, hi)| && Range(log, lo, hi)[i] == e;
    var k := UpTo(log, lo - 1) + i;
    assert k < |log| && log[k] == e && e.sequence <= hi by { RangeIndex(log, lo, hi, i); }
    assert Range(log, lo', hi)[k - UpTo(log, lo' - 1)] == e by { RangeComplete(log, lo', hi, k); }
  }

  /** The planner's answer over the events from `from` to the watermark is the runner's answer
      over the log, whenever the planner's events reach back to the opening event. */
  lemma PlannerAndRunnerAgreeOnOpening(log: seq<Event>, from: int, opening: int, watermark: int)
    requires Ordered(log) && from <= opening + 1
    ensures Unanswered(log, opening, watermark) <==> !AnsweredIn(Range(log, from, watermark), opening)
  {
    var after := Range(log, opening + 1, watermark);
    AnyMeans(after, IsOutput);
    if i :| 0 <= i < |after| && IsOutput(after[i]) {
      assert after[i].sequence > opening by { RangeOrdered(log, opening + 1, watermark); }
      RangeMember(log, opening + 1, from, watermark, after[i]);
    } else if e :| e in Range(log, from, watermark) && e.sequence > opening && IsOutput(e) {
      RangeMember(log, from, opening + 1, watermark, e);
      assert false;
    }
  }

  /** Some event of the log between two sequences satisfies p exactly when one in their range does. */
  lemma AnyInRange(log: seq<Event>, lo: int, hi: int, p: Event -> bool)
    requires Ordered(log)
    ensures Any(Range(log, lo, hi), p) <==> exists e :: e in log && lo <= e.sequence <= hi && p(e)
  {
    var range := Range(log, lo, hi);
    AnyMeans(range, p);
    if i :| 0 <= i < |range| && p(range[i]) {
      RangeIndex(log, lo, hi, i);
      assert range[i] in log;
    }
    if e :| e in log && lo <= e.sequence <= hi && p(e) {
      var k :| 0 <= k < |log| && log[k] == e;
      RangeComplete(log, lo, hi, k);
      AnyFound(range, p, e);
    }
  }

  /** The opening is unanswered exactly when the log has no model output after it up to the watermark. */
  lemma UnansweredMeans(log: seq<Event>, opening: int, watermark: int)
    requires Ordered(log)
    ensures Unanswered(log, opening, watermark) <==>
      !exists e :: e in log && opening < e.sequence <= watermark && e.kind == ModelOutput
  {
    AnyInRange(log, opening + 1, watermark, IsOutput);
    if e :| e in log && opening < e.sequence <= watermark && e.kind == ModelOutput {
      assert IsOutput(e);
    }
  }

  /** Source remains exactly when the log has, after the end and up to the watermark, an event that a
      model can see and that a protected opening does not cover. */
  lemma RemainingMeans(log: seq<Event>, end: int, watermark: int, protectOpening: bool, opening: int)
    requires Ordered(log)
    ensures Any(Range(log, end + 1, watermark), Summarizable(protectOpening, opening)) <==>
      exists e :: e in log && end < e.sequence <= watermark && HasModelSemantics(e) && (protectOpening ==> e.sequence < opening)
  {
    var p := Summarizable(protectOpening, opening);
    AnyInRange(log, end + 1, watermark, p);
    if e :| e in log && end < e.sequence <= watermark && HasModelSemantics(e) && (protectOpening ==> e.sequence < opening) {
      assert p(e);
    }
  }

  // ----- one page of the log -----

  /** The first k events of the page after `after` are those up to hi: the next one is past hi,
      or nothing follows the page. */
  ghost predicate StopsAt(page: seq<Event>, limit: nat, hi: int, k: nat) {
    && k <= |page|
    && (k == 0 || page[k - 1].sequence <= hi)
    && (if k < |page| then hi < page[k].sequence else k < limit)
  }

  lemma Splice<T>(s: seq<T>, a: nat, b: nat, c: nat, d: nat)
    requires a <= b <= c <= d <= |s|
    ensures s[a..c] == s[a..b] + s[b..d][..c - b]
  {
  }

  /** Moving on by k events of the page extends a range by exactly those events. */
  lemma PageExtends(log: seq<Event>, lo: int, after: int, limit: nat, hi: int, k: nat)
    requires Ordered(log) && lo - 1 <= after && k <= |PageAfter(log, after, limit)|
    requires UpTo(log, hi) == UpTo(log, after) + k
    ensures Range(log, lo, hi) == Range(log, lo, after) + PageAfter(log, after, limit)[..k]
  {
    UpToMonotone(log, lo - 1, after);
    Splice(log, UpTo(log, lo - 1), UpTo(log, after), UpTo(log, hi), MinNat(|log|, UpTo(log, after) + limit));
  }

  lemma PageStops(log: seq<Event>, lo: int, after: int, limit: nat, hi: int, k: nat)
    requires Ordered(log) && lo - 1 <= after <= hi
    requires StopsAt(PageAfter(log, after, limit), limit, hi, k)
    ensures Range(log, lo, hi) == Range(log, lo, after) + PageAfter(log, after, limit)[..k]
  {
    var page := PageAfter(log, after, limit);
    var from := UpTo(log, after);
    assert 0 < k ==> page[k - 1] == log[from + k - 1];
    assert k < |page| ==> page[k] == log[from + k];
    UpToIs(log, hi, from + k);
    PageExtends(log, lo, after, limit, hi, k);
  }

  /** Taking the whole page moves the position to its last event. */
  lemma PageTaken(log: seq<Event>, lo: int, after: int, limit: nat)
    requires Ordered(log) && lo - 1 <= after && PageAfter(log, after, limit) != []
    ensures var page := PageAfter(log, after, limit); var last := page[|page| - 1].sequence;
      after < last <= Last(log) && Range(log, lo, last) == Range(log, lo, after) + page[..|page|]
  {
    var page := PageAfter(log, after, limit);
    var to := UpTo(log, after) + |page|;
    assert page[|page| - 1] == log[to - 1];
    UpToSplits(log, after);
    Sequences(log, to - 1, to - 1);
    if to < |log| { Sequences(log, to - 1, to); }
    UpToIs(log, log[to - 1].sequence, to);
    PageExtends(log, lo, after, limit, log[to - 1].sequence, |page|);
  }

  /** An event past the position bounds it by the end of the log. */
  lemma FollowedBy(log: seq<Event>, after: int, limit: nat, k: nat)
    requires Ordered(log) && k < |PageAfter(log, after, limit)|
    ensures PageAfter(log, after, limit)[k].sequence <= Last(log)
  {
    Sequences(log, UpTo(log, after) + k, UpTo(log, after) + k);
  }

  /** The page loop of loadClosedEventRange: appends the page's events up to `end`. */
  method TakeSource(page: seq<Event>, end: int, after0: int, out0: seq<Event>)
    returns (after: int, out: seq<Event>, ghost k: nat)
    ensures k <= |page| && out == out0 + page[..k]
    ensures k == 0 || page[k - 1].sequence <= end
    ensures k < |page| ==> end < page[k].sequence && after == end
    ensures k == |page| ==> after == if k == 0 then after0 else page[k - 1].sequence
  {
    after, out, k := after0, out0, 0;
    for i := 0 to |page|
      invariant k == i && out == out0 + page[..i]
      invariant i == 0 || page[i - 1].sequence <= end
      invariant after == if i == 0 then after0 else page[i - 1].sequence
    {
      if page[i].sequence > end {
        after := end;
        return;
      }
      out := out + [page[i]];
      after := page[i].sequence;
      k := i + 1;
    }
  }

  /** The page loop of openingEventsRequireVerbatimRetention: stops at a model output or past
      the watermark. */
  method ScanForOutput(page: seq<Event>, watermark: int, after0: int)
    returns (after: int, found: Option<bool>, ghost k: nat)
    ensures Scanned(page, watermark, IsOutput, after0, found, after, k)
  {
    after, k, found := after0, 0, None;
    for i := 0 to |page|
      invariant k == i && !Any(page[..i], IsOutput)
      invariant i == 0 || page[i - 1].sequence <= watermark
      invariant after == if i == 0 then after0 else page[i - 1].sequence
    {
      assert page[..i + 1][..i] == page[..i];
      if page[i].sequence > watermark {
        found := Some(false);
        return;
      }
      after := page[i].sequence;
      if page[i].kind == ModelOutput {
        found := Some(true);
        return;
      }
      k := i + 1;
    }
  }

  /** The page loop of hasRemainingSemanticSource. */
  method ScanForSource(page: seq<Event>, watermark: int, protectOpening: bool, opening: int, after0: int)
    returns (after: int, found: Option<bool>, ghost k: nat)
    ensures Scanned(page, watermark, Summarizable(protectOpening, opening), after0, found, after, k)
  {
    after, k, found := after0, 0, None;
    for i := 0 to |page|
      invariant k == i && !Any(page[..i], Summarizable(protectOpening, opening))
      invariant i == 0 || page[i - 1].sequence <= watermark
      invariant after == if i == 0 then after0 else page[i - 1].sequence
    {
      assert page[..i + 1][..i] == page[..i];
      if page[i].sequence > watermark {
        found := Some(false);
        return;
      }
      after := page[i].sequence;
      if protectOpening && page[i].sequence >= opening {
        k := i + 1;
        continue;
      }
      if HasModelSemantics(page[i]) {
        found := Some(true);
        return;
      }
      k := i + 1;
    }
  }

  /** An event found on a page lies in the range. */
  lemma FoundInRange(log: seq<Event>, lo: int, after: int, limit: nat, hi: int, k: nat)
    requires Ordered(log) && lo - 1 <= after && k < |PageAfter(log, after, limit)|
    requires PageAfter(log, after, limit)[k].sequence <= hi
    ensures PageAfter(log, after, limit)[k] in Range(log, lo, hi)
  {
    UpToSplits(log, after);
    RangeComplete(log, lo, hi, UpTo(log, after) + k);
  }

  /** What one page says about a search for p in lo..hi when its first k events hold no p. */
  lemma SearchFound(log: seq<Event>, lo: int, after: int, limit: nat, hi: int, k: nat, p: Event -> bool)
    requires Ordered(log) && lo - 1 <= after && k < |PageAfter(log, after, limit)|
    requires PageAfter(log, after, limit)[k].sequence <= hi && p(PageAfter(log, after, limit)[k])
    ensures Any(Range(log, lo, hi), p)
  {
    FoundInRange(log, lo, after, limit, hi, k);
    AnyFound(Range(log, lo, hi), p, PageAfter(log, after, limit)[k]);
  }

  lemma SearchEnds(log: seq<Event>, lo: int, after: int, limit: nat, hi: int, k: nat, p: Event -> bool)
    requires Ordered(log) && lo - 1 <= after <= hi
    requires StopsAt(PageAfter(log, after, limit), limit, hi, k)
    requires !Any(Range(log, lo, after), p) && !Any(PageAfter(log, after, limit)[..k], p)
    ensures !Any(Range(log, lo, hi), p)
  {
    PageStops(log, lo, after, limit, hi, k);
    AnyConcat(Range(log, lo, after), PageAfter(log, after, limit)[..k], p);
  }

  lemma SearchMovesOn(log: seq<Event>, lo: int, after: int, limit: nat, p: Event -> bool)
    requires Ordered(log) && lo - 1 <= after && PageAfter(log, after, limit) != []
    requires var page := PageAfter(log, after, limit); !Any(Range(log, lo, after), p) && !Any(page[..|page|], p)
    ensures var page := PageAfter(log, after, limit); var last := page[|page| - 1].sequence;
      after < last <= Last(log) && !Any(Range(log, lo, last), p)
  {
    PageTaken(log, lo, after, limit);
    var page := PageAfter(log, after, limit);
    AnyConcat(Range(log, lo, after), page[..|page|], p);
  }

  /** The outcome of scanning a page for p: found at k, stopped past hi at k, or all read. */
  ghost predicate Scanned(page: seq<Event>, hi: int, p: Event -> bool, after: int, found: Option<bool>, after': int, k: nat) {
    && k <= |page| && !Any(page[..k], p) && (k == 0 || page[k - 1].sequence <= hi)
    && (found.None? ==> k == |page| && after' == if k == 0 then after else page[k - 1].sequence)
    && (found.Some? && !found.value ==> k < |page| && hi < page[k].sequence)
    && (found.Some? && found.value ==> k < |page| && page[k].sequence <= hi && p(page[k]))
  }

  lemma SearchDecides(log: seq<Event>, lo: int, after: int, limit: nat, hi: int, p: Event -> bool,
                      found: Option<bool>, after': int, k: nat)
    requires Ordered(log) && 0 < limit && lo - 1 <= after < hi
    requires Scanned(PageAfter(log, after, limit), hi, p, after, found, after', k)
    requires !Any(Range(log, lo, after), p)
    ensures found.Some? ==> found.value == Any(Range(log, lo, hi), p)
    ensures found.None? && |PageAfter(log, after, limit)| < limit ==> !Any(Range(log, lo, hi), p)
    ensures found.None? && |PageAfter(log, after, limit)| == limit ==>
      after < after' <= hi && after' <= Last(log) && !Any(Range(log, lo, after'), p)
  {
    var page := PageAfter(log, after, limit);
    if found.Some? && found.value {
      SearchFound(log, lo, after, limit, hi, k, p);
    } else if found.Some? || |page| < limit {
      SearchEnds(log, lo, after, limit, hi, k, p);
    } else {
      SearchMovesOn(log, lo, after, limit, p);
    }
  }

  lemma TakeDecides(log: seq<Event>, lo: int, after: int, limit: nat, hi: int, k: nat)
    requires Ordered(log) && 0 < limit && lo - 1 <= after < hi
    requires var page := PageAfter(log, after, limit);
      k <= |page| && (k == 0 || page[k - 1].sequence <= hi) && (k < |page| ==> hi < page[k].sequence)
    ensures var page := PageAfter(log, after, limit);
      (k < |page| || |page| < limit ==> Range(log, lo, hi) == Range(log, lo, after) + page[..k]) &&
      (k < |page| ==> hi <= Last(log)) &&
      (k == |page| > 0 ==>
        after < page[k - 1].sequence <= hi && page[k - 1].sequence <= Last(log) &&
        Range(log, lo, page[k - 1].sequence) == Range(log, lo, after) + page[..k])
  {
    var page := PageAfter(log, after, limit);
    if k < |page| || |page| < limit {
      assert Range(log, lo, hi) == Range(log, lo, after) + page[..k] by { PageStops(log, lo, after, limit, hi, k); }
    }
    if k < |page| {
      assert page[k].sequence <= Last(log) by { FollowedBy(log, after, limit, k); }
    } else if k > 0 {
      assert after < page[k - 1].sequence <= Last(log) by { PageTaken(log, lo, after, limit); }
      assert Range(log, lo, page[k - 1].sequence) == Range(log, lo, after) + page[..k] by { PageTaken(log, lo, after, limit); }
    }
  }

  /** What has been read stays read: a range up to a position that was reached does not change. */
  lemma ReadIsStable(log: seq<Event>, log': seq<Event>, lo: int, after: int)
    requires Ordered(log') && log <= log'
    requires after == lo - 1 || after <= Last(log)
    ensures Range(log', lo, after) == Range(log, lo, after)
  {
    PrefixOrdered(log, log');
    if after <= Last(log) {
      RangeStable(log, log', lo, after);
    } else {
      RangeEmpty(log, lo, after);
      RangeEmpty(log', lo, after);
    }
  }

  /** What one page says: found, ruled out by a short page, or still open. */
  function Verdict(found: Option<bool>, short: bool): Option<bool> {
    if found.Some? then found else if short then Some(false) else None
  }

  ghost predicate Settles(log: seq<Event>, lo: int, after: int, hi: int, p: Event -> bool, r: Option<bool>, after': int) {
    && (r.Some? ==> r.value == Any(Range(log, lo, hi), p))
    && (r.None? ==> after < after' <= hi && after' <= Last(log) && !Any(Range(log, lo, after'), p))
  }

  lemma PageDecides(log0: seq<Event>, log: seq<Event>, lo: int, after: int, limit: nat, hi: int, p: Event -> bool,
                    page: seq<Event>, found: Option<bool>, after': int, k: nat)
    requires Ordered(log) && log0 <= log && 0 < limit && lo - 1 <= after < hi
    requires after == lo - 1 || after <= Last(log0)
    requires !Any(Range(log0, lo, after), p)
    requires page == PageAfter(log, after, limit) && Scanned(page, hi, p, after, found, after', k)
    ensures Settles(log, lo, after, hi, p, Verdict(found, |page| < limit), after')
  {
    ReadIsStable(log0, log, lo, after);
    SearchDecides(log, lo, after, limit, hi, p, found, after', k);
  }

  /** What a page read after `after0` says about the opening. */
  method OpeningVerdict(page: seq<Event>, opening: int, watermark: int, after0: int, limit: nat, ghost log0: seq<Event>, ghost log: seq<Event>)
    returns (verdict: Option<bool>, after: int)
    requires Ordered(log) && log0 <= log && 0 < limit && opening <= after0 < watermark
    requires after0 == opening || after0 <= Last(log0)
    requires !Any(Range(log0, opening + 1, after0), IsOutput) && page == PageAfter(log, after0, limit)
    ensures Settles(log, opening + 1, after0, watermark, IsOutput, verdict, after)
  {
    var found;
    ghost var k;
    after, found, k := ScanForOutput(page, watermark, after0);
    verdict := Verdict(found, |page| < limit);
    PageDecides(log0, log, opening + 1, after0, limit, watermark, IsOutput, page, found, after, k);
  }

  /** What a page read after `after0` says about the source that remains. */
  method RemainingVerdict(page: seq<Event>, end: int, watermark: int, protectOpening: bool, opening: int, after0: int, limit: nat,
                          ghost log0: seq<Event>, ghost log: seq<Event>)
    returns (verdict: Option<bool>, after: int)
    requires Ordered(log) && log0 <= log && 0 < limit && end <= after0 < watermark
    requires after0 == end || after0 <= Last(log0)
    requires !Any(Range(log0, end + 1, after0), Summarizable(protectOpening, opening)) && page == PageAfter(log, after0, limit)
    ensures Settles(log, end + 1, after0, watermark, Summarizable(protectOpening, opening), verdict, after)
  {
    var found;
    ghost var k;
    after, found, k := ScanForSource(page, watermark, protectOpening, opening, after0);
    verdict := Verdict(found, |page| < limit);
    PageDecides(log0, log, end + 1, after0, limit, watermark, Summarizable(protectOpening, opening), page, found, after, k);
  }

  lemma UnansweredAtEnd(log: seq<Event>, opening: int, watermark: int, after: int)
    requires Ordered(log) && (after == watermark || (after == opening && watermark < opening))
    requires !Any(Range(log, opening + 1, after), IsOutput)
    ensures Unanswered(log, opening, watermark)
  {
    if watermark < opening { RangeEmpty(log, opening + 1, watermark); }
  }

  class ExecutionStore {
    var log: seq<Event>
    var tools: seq<ToolGroup>
    var checkpoints: seq<Checkpoint>
    /** The checkpoint that a model call produced, by the call's context. */
    var produced: map<nat, Checkpoint>
    /** How many calls to the store have failed. */
    var failures: nat

    ghost function State(): World reads this { World(log, tools) }

    /** Concurrent transactions extend the log and the tool calls; checkpoints are published
        only by the holder of the agent's runtime lock. */
    method Interfere()
      requires Ordered(log)
      modifies this`log, this`tools
      ensures Extends(old(State()), State())
    {
      var log': seq<Event> := *;
      var tools': seq<ToolGroup> := *;
      ExtendsReflexive(State());
      if Extends(World(log, tools), World(log', tools')) {
        log, tools := log', tools';
      }
    }

    /** PublishContextCheckpoint: records the checkpoint and appends its event, or refuses; a repeated
        watermark or end is always refused. */
    method Publish(publication: Publication, contextId: nat, start: int, end: int, watermark: int, summary: string, turn: TurnId)
      returns (r: PublishResult)
      requires Ordered(log)
      modifies this
      ensures Extends(old(State()), State()) && failures == old(failures)
      ensures r.Published? <==> publication.Accepts? && Unpublished(old(checkpoints), watermark, end)
      ensures r.BoundaryUnsafe? <==> publication.FindsUnsafe?
      ensures r.Published? ==> checkpoints == old(checkpoints) + [r.checkpoint]
      ensures r.Published? ==> r.checkpoint == Checkpoint(start, end, watermark, Last(log), summary)
      ensures r.Published? ==> old(Last(log)) < Last(log)
      ensures r.Published? ==> produced == old(produced)[contextId := r.checkpoint]
      ensures !r.Published? ==> checkpoints == old(checkpoints) && produced == old(produced)
    {
      ghost var w0 := State();
      Interfere();
      if publication.FindsUnsafe? {
        return BoundaryUnsafe;
      }
      if publication.Refuses? || !Unpublished(checkpoints, watermark, end) {
        return PublishRefused;
      }
      ghost var w1 := State();
      PrefixOrdered(w0.log, w1.log);
      var event := Event(Last(log) + 1, turn, false, ContextCheckpoint, "", "", "", Content(0, Some(0)), Some(""));
      log := log + [event];
      AppendExtends(w1, event);
      ExtendsTransitive(w0, w1, State());
      var checkpoint := Checkpoint(start, end, watermark, event.sequence, summary);
      checkpoints := checkpoints + [checkpoint];
      produced := produced[contextId := checkpoint];
      return Published(checkpoint);
    }

    method ListSourceEvents(after: int, limit: nat) returns (page: PageResult)
      requires Ordered(log)
      modifies this`log, this`tools, this`failures
      ensures Extends(old(State()), State())
      ensures page.Page? ==> page.events == PageAfter(log, after, limit)
      ensures failures == if page.PageFailed? then old(failures) + 1 else old(failures)
    {
      Interfere();
      var fails: bool := *;
      if fails {
        failures := failures + 1;
        return PageFailed;
      }
      return Page(PageAfter(log, after, limit));
    }

    /** One more page, seen as growth since the state w0. */
    method ReadOn(after: int, limit: nat, ghost w0: World) returns (page: PageResult)
      requires Ordered(log) && Extends(w0, State())
      modifies this`log, this`tools, this`failures
      ensures Extends(w0, State()) && old(log) <= log && Ordered(log)
      ensures page.Page? ==> page.events == PageAfter(log, after, limit)
      ensures failures == if page.PageFailed? then old(failures) + 1 else old(failures)
    {
      page := ListSourceEvents(after, limit);
      ExtendsTransitive(w0, old(State()), State());
    }

    /** The read loop of loadClosedEventRange. */
    method LoadRange(start: int, end: int, limit: nat) returns (ok: bool, out: seq<Event>)
      requires Ordered(log) && start <= end && 0 < limit
      modifies this`log, this`tools, this`failures
      ensures Extends(old(State()), State())
      ensures ok ==> out == Range(log, start, end)
      ensures ok <==> failures == old(failures)
      ensures old(failures) <= failures
    {
      var after := start - 1;
      out := [];
      ghost var w0 := State();
      ExtendsReflexive(w0);
      RangeEmpty(log, start, start - 1);
      while after < end
        invariant Ordered(log) && Extends(w0, State())
        invariant start - 1 <= after <= end
        invariant after == start - 1 || after <= Last(log)
        invariant out == Range(log, start, after)
        invariant failures == old(failures)
        decreases end - after
      {
        ghost var before, log0 := after, log;
        var page := ReadOn(after, limit, w0);
        if page.PageFailed? {
          return false, [];
        }
        ReadIsStable(log0, log, start, after);
        ghost var k;
        after, out, k := TakeSource(page.events, end, after, out);
        TakeDecides(log, start, before, limit, end, k);
        if |page.events| < limit {
          return true, out;
        }
      }
      return true, out;
    }

    /** loadClosedEventRange: reads the range in pages and succeeds exactly when every sequence
        of it is present; the result is that range of the log. */
    method LoadClosedRange(start: int, end: int, limit: nat) returns (r: LoadResult)
      requires Ordered(log) && 0 < start <= end && 0 < limit
      modifies this`log, this`tools, this`failures
      ensures Extends(old(State()), State())
      ensures r.Loaded? ==> r.events == Range(log, start, end) && Closed(r.events, start, end)
      ensures r.NotClosed? ==> !Closed(Range(log, start, end), start, end)
      ensures r.LoadFailed? <==> failures != old(failures)
      ensures old(failures) <= failures
    {
      var ok, out := LoadRange(start, end, limit);
      if !ok {
        return LoadFailed;
      }
      if |out| != end - start + 1 {
        return NotClosed;
      }
      for index := 0 to |out|
        invariant forall i :: 0 <= i < index ==> out[i].sequence == start + i
      {
        if out[index].sequence != start + index {
          return NotClosed;
        }
      }
      return Loaded(out);
    }

    /** One page of openingEventsRequireVerbatimRetention. */
    method OpeningPage(opening: int, watermark: int, after0: int, limit: nat, ghost w0: World)
      returns (r: Option<Answer>, after: int)
      requires Ordered(log) && Extends(w0, State()) && 0 < limit
      requires opening <= after0 < watermark && (after0 == opening || after0 <= Last(log))
      requires !Any(Range(log, opening + 1, after0), IsOutput)
      modifies this`log, this`tools, this`failures
      ensures Ordered(log) && Extends(w0, State())
      ensures r.Some? && r.value.Known? ==> r.value.value == Unanswered(log, opening, watermark)
      ensures r.None? ==> after0 < after <= watermark && after <= Last(log) && !Any(Range(log, opening + 1, after), IsOutput)
      ensures r == Some(AnswerFailed) <==> failures != old(failures)
      ensures old(failures) <= failures
    {
      after := after0;
      ghost var log0 := log;
      var page := ReadOn(after, limit, w0);
      if page.PageFailed? {
        return Some(AnswerFailed), after;
      }
      var verdict;
      verdict, after := OpeningVerdict(page.events, opening, watermark, after0, limit, log0, log);
      r := if verdict.Some? then Some(Known(!verdict.value)) else None;
    }

    /** openingEventsRequireVerbatimRetention: the paged answer is the whole-log answer. */
    method OpeningRequiresVerbatimRetention(opening: int, watermark: int, limit: nat) returns (r: Answer)
      requires Ordered(log) && 0 < limit
      modifies this`log, this`tools, this`failures
      ensures Extends(old(State()), State())
      ensures r.Known? ==> r.value == Unanswered(log, opening, watermark)
      ensures r.AnswerFailed? <==> failures != old(failures)
      ensures old(failures) <= failures
    {
      var after := opening;
      ghost var w0 := State();
      ExtendsReflexive(w0);
      RangeEmpty(log, opening + 1, opening);
      while after < watermark
        invariant Ordered(log) && Extends(w0, State())
        invariant opening <= after && (after <= watermark || after == opening)
        invariant after == opening || after <= Last(log)
        invariant !Any(Range(log, opening + 1, after), IsOutput)
        invariant failures == old(failures)
        decreases watermark - after
      {
        var answer;
        answer, after := OpeningPage(opening, watermark, after, limit, w0);
        if answer.Some? {
          return answer.value;
        }
      }
      UnansweredAtEnd(log, opening, watermark, after);
      return Known(true);
    }

    /** One page of hasRemainingSemanticSource. */
    method RemainingPage(end: int, watermark: int, protectOpening: bool, opening: int, after0: int, limit: nat, ghost w0: World)
      returns (r: Option<Answer>, after: int)
      requires Ordered(log) && Extends(w0, State()) && 0 < limit
      requires end <= after0 < watermark && (after0 == end || after0 <= Last(log))
      requires !Any(Range(log, end + 1, after0), Summarizable(protectOpening, opening))
      modifies this`log, this`tools, this`failures
      ensures Ordered(log) && Extends(w0, State())
      ensures r.Some? && r.value.Known? ==>
        r.value.value == Any(Range(log, end + 1, watermark), Summarizable(protectOpening, opening))
      ensures r.None? ==> after0 < after <= watermark && after <= Last(log)
      ensures r.None? ==> !Any(Range(log, end + 1, after), Summarizable(protectOpening, opening))
      ensures r == Some(AnswerFailed) <==> failures != old(failures)
      ensures old(failures) <= failures
    {
      after := after0;
      ghost var log0 := log;
      var page := ReadOn(after, limit, w0);
      if page.PageFailed? {
        return Some(AnswerFailed), after;
      }
      var verdict;
      verdict, after := RemainingVerdict(page.events, end, watermark, protectOpening, opening, after0, limit, log0, log);
      r := if verdict.Some? then Some(Known(verdict.value)) else None;
    }

    /** hasRemainingSemanticSource: true exactly when an event after the source, within the
        watermark, can still be summarised. */
    method HasRemainingSource(end: int, watermark: int, protectOpening: bool, opening: int, limit: nat) returns (r: Answer)
      requires Ordered(log) && 0 < limit && end <= watermark
      modifies this`log, this`tools, this`failures
      ensures Extends(old(State()), State())
      ensures r.Known? ==> r.value == Any(Range(log, end + 1, watermark), Summarizable(protectOpening, opening))
      ensures r.AnswerFailed? <==> failures != old(failures)
      ensures old(failures) <= failures
    {
      var after := end;
      ghost var w0 := State();
      ExtendsReflexive(w0);
      RangeEmpty(log, end + 1, end);
      while after < watermark
        invariant Ordered(log) && Extends(w0, State())
        invariant end <= after <= watermark
        invariant after == end || after <= Last(log)
        invariant !Any(Range(log, end + 1, after), Summarizable(protectOpening, opening))
        invariant failures == old(failures)
        decreases watermark - after
      {
        var answer;
        answer, after := RemainingPage(end, watermark, protectOpening, opening, after, limit, w0);
        if answer.Some? {
          return answer.value;
        }
      }
      return Known(false);
    }
  }
}
