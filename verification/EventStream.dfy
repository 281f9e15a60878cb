/** One live event stream: the reader loop of a connection, move by move, together with the
    one-slot wakeup channel that subscribers and the reconciler fill. */
module EventStream {
  const PAGE_LIMIT := 100

  /** A durable event of an agent; `context` is "" when it names no model call. */
  datatype Entry = Entry(sequence: int, output: bool, context: string)

  datatype Frame = EventFrame(entry: Entry) | DeltaFrame(context: string) | OtherFrame

  /** Where the connection is in its loop: subscribed but not yet registered, about to read,
      waiting for the query (`from` events were durable when it was sent), writing the records of
      a page, about to advance the registered cursor, about to poll the slot, or blocked. */
  datatype Phase =
    | Connecting
    | Reading
    | Querying(from: nat)
    | Writing(page: seq<Entry>, next: nat)
    | Advancing(page: seq<Entry>, next: nat)
    | Polling
    | Parked
    | Stopped

  /** `due` records the highest event any wakeup or reconciliation has announced so far; no move
      of the reader looks at it. */
  datatype Stream = Stream(
    agent: int, start: int, after: int, cursor: int, slot: bool, due: nat,
    phase: Phase, frames: seq<Frame>, completed: set<string>)

  datatype Start = StartAt(after: int) | Rejected

  /** The starting cursor of a request: Last-Event-ID wins over after_sequence. */
  function ChooseStart(afterSequence: int, hasAfter: bool, lastEventID: int, hasLast: bool): (r: Start)
    ensures r.Rejected? <==> (hasAfter && afterSequence < 0) || (hasLast && lastEventID < 0)
    ensures r.StartAt? ==> r.after >= 0 && (hasLast ==> r.after == lastEventID)
    ensures r.StartAt? && !hasLast ==> r.after == if hasAfter then afterSequence else 0
  {
    if hasAfter && afterSequence < 0 then Rejected
    else if hasLast && lastEventID < 0 then Rejected
    else StartAt(if hasLast then lastEventID else if hasAfter then afterSequence else 0)
  }

  function Opened(agent: int, start: int): Stream {
    Stream(agent, start, start, start, false, 0, Connecting, [], {})
  }

  // ----- the log -----

  ghost predicate Numbered(log: seq<Entry>) {
    forall i :: 0 <= i < |log| ==> log[i].sequence == i + 1
  }

  /** ListAgentEventsForRead over the first n events. */
  function Page(log: seq<Entry>, after: int, n: nat): (page: seq<Entry>)
    requires 0 <= after && n <= |log|
    ensures |page| <= PAGE_LIMIT
  {
    if n <= after then []
    else if n - after <= PAGE_LIMIT then log[after..n]
    else log[after..after + PAGE_LIMIT]
  }

  /** The page is the query's answer: the next events past `after`, and all of them unless it is full. */
  lemma PageIsQuery(log: seq<Entry>, after: int, n: nat, e: Entry)
    requires Numbered(log) && 0 <= after && n <= |log|
    ensures e in Page(log, after, n) <==> e in log[..n] && after < e.sequence <= after + PAGE_LIMIT
  {
    var page := Page(log, after, n);
    if i :| 0 <= i < |page| && page[i] == e {
      assert log[..n][after + i] == e;
    }
    if e in log[..n] && after < e.sequence <= after + PAGE_LIMIT {
      var i :| 0 <= i < n && log[i] == e;
      assert page[i - after] == e;
    }
  }

  // ----- moves of the reader -----

  datatype Move =
    | BeginRead
    | FinishRead(n: nat)
    | DeliverRecord(fault: bool)
    | AdvanceCursor
    | PollSlot
    | TakeSlot
    | Heartbeat
    | EmitUpdate
    | EmitDelta(valid: bool, context: string)
    | Stop(report: bool)

  predicate CanMove(log: seq<Entry>, st: Stream, m: Move) {
    match m
    case BeginRead => st.phase.Reading?
    case FinishRead(n) => st.phase.Querying? && st.phase.from <= n <= |log|
    case DeliverRecord(fault) => st.phase.Writing? && st.phase.next < |st.phase.page|
    case AdvanceCursor => st.phase.Advancing?
    case PollSlot => st.phase.Polling?
    case TakeSlot => st.phase.Parked? && st.slot
    case Heartbeat => st.phase.Parked?
    case EmitUpdate => st.phase.Parked?
    case EmitDelta(_, _) => st.phase.Parked?
    case Stop(_) => !st.phase.Stopped?
  }

  /** The records are on the wire: the next page follows a full one at once. */
  function PageDone(page: seq<Entry>): Phase {
    if |page| == PAGE_LIMIT then Reading else Polling
  }

  function Fetch(log: seq<Entry>, st: Stream, n: nat): Stream
    requires 0 <= st.after && n <= |log|
  {
    var page := Page(log, st.after, n);
    st.(phase := if page == [] then PageDone(page) else Writing(page, 0))
  }

  /** One record: its frame, the completed model call, the position. A fault is an identifier that
      cannot be formed: the frame is out, an error frame follows and the stream ends. */
  function Deliver(st: Stream, fault: bool): Stream
    requires st.phase.Writing? && st.phase.next < |st.phase.page|
  {
    var record := st.phase.page[st.phase.next];
    var frames := st.frames + [EventFrame(record)];
    if record.output && record.context != "" && fault then
      st.(frames := frames + [OtherFrame], phase := Stopped)
    else
      st.(frames := frames,
          completed := if record.output && record.context != "" then st.completed + {record.context} else st.completed,
          after := record.sequence,
          phase := Advancing(st.phase.page, st.phase.next))
  }

  function Advance(st: Stream): Stream
    requires st.phase.Advancing?
  {
    var next := st.phase.next + 1;
    st.(cursor := if st.after <= st.cursor then st.cursor else st.after,
        phase := if next < |st.phase.page| then Writing(st.phase.page, next) else PageDone(st.phase.page))
  }

  /** writeModelOutputDeltaFrame. */
  function WriteDelta(st: Stream, valid: bool, context: string): Stream {
    if !valid || (context != "" && context in st.completed) then st.(phase := Polling)
    else st.(frames := st.frames + [DeltaFrame(context)], phase := Polling)
  }

  function Moved(log: seq<Entry>, st: Stream, m: Move): Stream
    requires CanMove(log, st, m) && 0 <= st.after
  {
    match m
    case BeginRead => st.(phase := Querying(|log|))
    case FinishRead(n) => Fetch(log, st, n)
    case DeliverRecord(fault) => Deliver(st, fault)
    case AdvanceCursor => Advance(st)
    case PollSlot => if st.slot then st.(slot := false, phase := Reading) else st.(phase := Parked)
    case TakeSlot => st.(slot := false, phase := Reading)
    case Heartbeat => st.(phase := Polling)
    case EmitUpdate => st.(frames := st.frames + [OtherFrame], phase := Polling)
    case EmitDelta(valid, context) => WriteDelta(st, valid, context)
    case Stop(report) => st.(phase := Stopped, frames := if report then st.frames + [OtherFrame] else st.frames)
  }

  /** A send into the one-slot channel; a full slot stays full. */
  function Signal(st: Stream, frontier: nat): Stream {
    st.(slot := true, due := if st.due < frontier then frontier else st.due)
  }

  /** The reconciler found the cursor at the frontier: nothing is sent. */
  function Skip(st: Stream, frontier: nat): Stream {
    st.(due := if st.due < frontier then frontier else st.due)
  }

  /** Everything that can happen to a stream: its own moves, its log growing, a wakeup or a
      reconciler's check, and the outcome of registering. */
  datatype Effect = Stays | Grows(entry: Entry) | Moves(move: Move) | Signalled(frontier: nat) | Skipped(frontier: nat) | Admitted(closed: bool)

  predicate CanAffect(log: seq<Entry>, st: Stream, e: Effect) {
    match e
    case Stays => true
    case Grows(entry) => entry.sequence == |log| + 1
    case Moves(m) => 0 <= st.after && CanMove(log, st, m)
    case Signalled(f) => f <= |log|
    case Skipped(f) => f <= |log| && f <= st.cursor
    case Admitted(_) => st.phase.Connecting?
  }

  function LogAfter(log: seq<Entry>, e: Effect): seq<Entry> {
    if e.Grows? then log + [e.entry] else log
  }

  function Affected(log: seq<Entry>, st: Stream, e: Effect): Stream
    requires CanAffect(log, st, e)
  {
    match e
    case Stays => st
    case Grows(_) => st
    case Moves(m) => Moved(log, st, m)
    case Signalled(f) => Signal(st, f)
    case Skipped(f) => Skip(st, f)
    case Admitted(closed) => st.(phase := if closed then Stopped else Reading)
  }

  predicate Blocked(st: Stream) {
    st.phase.Parked? && !st.slot
  }

  // ----- what every move keeps -----

  /** The events among the frames, in the order written. */
  function Events(frames: seq<Frame>): seq<Entry> {
    if frames == [] then []
    else
      var last := frames[|frames| - 1];
      if last.EventFrame? then Events(frames[..|frames| - 1]) + [last.entry] else Events(frames[..|frames| - 1])
  }

  lemma EventsAppend(frames: seq<Frame>, f: Frame)
    ensures Events(frames + [f]) == if f.EventFrame? then Events(frames) + [f.entry] else Events(frames)
  {
    assert (frames + [f])[..|frames|] == frames;
  }

  /** The events written are the log from the start, in order, each once. */
  ghost predicate InOrder(log: seq<Entry>, st: Stream) {
    var n := |Events(st.frames)|;
    && 0 <= st.start
    && (n > 0 ==> st.start + n <= |log| && Events(st.frames) == log[st.start..st.start + n])
  }

  /** The position and the registered cursor are the last event written. */
  ghost predicate Positioned(st: Stream) {
    var at := st.start + |Events(st.frames)|;
    match st.phase
    case Stopped => st.start <= st.cursor <= st.after <= at <= st.after + 1
    case Advancing(_, _) => st.cursor == st.after - 1 && st.after == at && st.start <= st.cursor
    case _ => st.cursor == st.after == at
  }

  /** `page` starts at position `base` of the log. */
  ghost predicate Fetched(log: seq<Entry>, page: seq<Entry>, base: int, next: nat) {
    && 0 <= base && next < |page| <= PAGE_LIMIT
    && base + |page| <= |log| && page == log[base..base + |page|]
  }

  ghost predicate PageHeld(log: seq<Entry>, st: Stream) {
    match st.phase
    case Writing(page, next) => Fetched(log, page, st.after - next, next)
    case Advancing(page, next) => Fetched(log, page, st.after - next - 1, next)
    case _ => true
  }

  /** Whatever was announced is in the slot, will be read, is being read, or has been written. */
  ghost predicate Woken(log: seq<Entry>, st: Stream) {
    && st.due <= |log|
    && (st.slot ||
        match st.phase
        case Connecting => true
        case Reading => true
        case Querying(from) => st.due <= from || st.due <= st.after
        case Writing(page, next) => |page| == PAGE_LIMIT || st.due <= st.after - next + |page|
        case Advancing(page, next) => |page| == PAGE_LIMIT || st.due <= st.after - next - 1 + |page|
        case Polling => st.due <= st.after
        case Parked => st.due <= st.after
        case Stopped => true)
  }

  /** The frame carries the model output that completes context c. */
  predicate Completes(f: Frame, c: string) {
    c != "" && f.EventFrame? && f.entry.output && f.entry.context == c
  }

  /** The model output that completes context c is among the frames. */
  ghost predicate CompletedIn(frames: seq<Frame>, c: string) {
    exists i :: 0 <= i < |frames| && Completes(frames[i], c)
  }

  /** The contexts remembered as complete are exactly those whose output is among the frames. */
  ghost predicate Remembered(st: Stream) {
    && (forall i, c :: 0 <= i < |st.frames| && Completes(st.frames[i], c) && !st.phase.Stopped? ==> c in st.completed)
    && (forall c :: c in st.completed ==> CompletedIn(st.frames, c))
  }

  lemma CompletedStays(frames: seq<Frame>, f: Frame, c: string)
    requires CompletedIn(frames, c)
    ensures CompletedIn(frames + [f], c)
  {
    var i :| 0 <= i < |frames| && Completes(frames[i], c);
    assert Completes((frames + [f])[i], c);
  }

  lemma RecalledAppend(st: Stream, f: Frame)
    requires forall c :: c in st.completed ==> CompletedIn(st.frames, c)
    ensures forall c :: c in st.completed ==> CompletedIn(st.frames + [f], c)
  {
    forall c | c in st.completed ensures CompletedIn(st.frames + [f], c) {
      CompletedStays(st.frames, f, c);
    }
  }

  /** No delta of a model call follows that call's output. */
  ghost predicate NoStaleDelta(frames: seq<Frame>) {
    forall i, j, c :: 0 <= i < j < |frames| && Completes(frames[i], c) ==> frames[j] != DeltaFrame(c)
  }

  ghost predicate StreamInv(log: seq<Entry>, st: Stream) {
    && Numbered(log)
    && InOrder(log, st)
    && Positioned(st)
    && PageHeld(log, st)
    && Woken(log, st)
    && Remembered(st)
    && NoStaleDelta(st.frames)
  }

  lemma OpenedIsSound(log: seq<Entry>, agent: int, start: int)
    requires Numbered(log) && 0 <= start
    ensures StreamInv(log, Opened(agent, start))
  {
  }

  lemma FramesKeepOrder(log: seq<Entry>, st: Stream, f: Frame)
    requires InOrder(log, st) && !f.EventFrame?
    ensures Events(st.frames + [f]) == Events(st.frames)
  {
    EventsAppend(st.frames, f);
  }

  lemma FetchKeeps(log: seq<Entry>, st: Stream, n: nat)
    requires StreamInv(log, st) && CanMove(log, st, FinishRead(n))
    ensures StreamInv(log, Fetch(log, st, n))
  {
    var page := Page(log, st.after, n);
    assert page != [] ==> Fetched(log, page, st.after, 0);
  }

  /** The next record is the event right after the position. */
  lemma NextInOrder(log: seq<Entry>, st: Stream)
    requires StreamInv(log, st) && st.phase.Writing?
    ensures var record := st.phase.page[st.phase.next];
      st.after < |log| && record == log[st.after] && record.sequence == st.after + 1 &&
      Events(st.frames) + [record] == log[st.start..st.after + 1]
  {
    var n := |Events(st.frames)|;
    assert st.after == st.start + n;
    assert n == 0 ==> log[st.start..st.start + 1] == [log[st.start]];
    assert log[st.start..st.start + n + 1] == log[st.start..st.start + n] + [log[st.start + n]];
  }

  lemma NoStaleAppend(st: Stream, f: Frame)
    requires Remembered(st) && NoStaleDelta(st.frames) && !st.phase.Stopped?
    requires f.DeltaFrame? ==> f.context == "" || f.context !in st.completed
    ensures NoStaleDelta(st.frames + [f])
  {
    var frames := st.frames + [f];
    forall i, j, c | 0 <= i < j < |frames| && Completes(frames[i], c)
      ensures frames[j] != DeltaFrame(c)
    {
      assert frames[i] == st.frames[i];
      if j < |st.frames| {
        assert frames[j] == st.frames[j];
      }
    }
  }

  lemma DeliverAppends(st: Stream, fault: bool)
    requires st.phase.Writing? && st.phase.next < |st.phase.page|
    ensures Events(Deliver(st, fault).frames) == Events(st.frames) + [st.phase.page[st.phase.next]]
  {
    var record := st.phase.page[st.phase.next];
    EventsAppend(st.frames, EventFrame(record));
    EventsAppend(st.frames + [EventFrame(record)], OtherFrame);
  }

  lemma DeliverKeepsOrder(log: seq<Entry>, st: Stream, fault: bool)
    requires StreamInv(log, st) && CanMove(log, st, DeliverRecord(fault))
    ensures InOrder(log, Deliver(st, fault)) && Positioned(Deliver(st, fault))
  {
    var st' := Deliver(st, fault);
    assert st.after < |log| && Events(st'.frames) == log[st.start..st.after + 1] by {
      NextInOrder(log, st);
      DeliverAppends(st, fault);
    }
    assert st'.phase.Stopped? || st'.after == st.after + 1 by { NextInOrder(log, st); }
    assert |Events(st'.frames)| == st.after + 1 - st.start;
  }

  lemma DeliverKeepsPage(log: seq<Entry>, st: Stream, fault: bool)
    requires StreamInv(log, st) && CanMove(log, st, DeliverRecord(fault))
    ensures PageHeld(log, Deliver(st, fault)) && Woken(log, Deliver(st, fault))
  {
    NextInOrder(log, st);
  }

  lemma DeliverKeepsContexts(st: Stream, fault: bool)
    requires Remembered(st) && NoStaleDelta(st.frames)
    requires st.phase.Writing? && st.phase.next < |st.phase.page|
    ensures Remembered(Deliver(st, fault)) && NoStaleDelta(Deliver(st, fault).frames)
  {
    var record := st.phase.page[st.phase.next];
    NoStaleAppend(st, EventFrame(record));
    RecalledAppend(st, EventFrame(record));
    var frames := st.frames + [EventFrame(record)];
    if record.output && record.context != "" {
      assert Completes(frames[|st.frames|], record.context);
      var written := st.(frames := frames, completed := st.completed + {record.context});
      NoStaleAppend(written, OtherFrame);
      RecalledAppend(written, OtherFrame);
    }
  }

  lemma AdvanceKeeps(log: seq<Entry>, st: Stream)
    requires StreamInv(log, st) && st.phase.Advancing?
    ensures StreamInv(log, Advance(st))
  {
  }

  /** Frames outside the log keep the order; a delta passes only if its model call is not complete. */
  lemma EmitKeeps(log: seq<Entry>, st: Stream, f: Frame, phase: Phase)
    requires StreamInv(log, st) && !st.phase.Stopped? && !f.EventFrame?
    requires f.DeltaFrame? ==> f.context == "" || f.context !in st.completed
    requires phase == Stopped || (phase == Polling && st.phase.Parked?)
    ensures StreamInv(log, st.(frames := st.frames + [f], phase := phase))
  {
    FramesKeepOrder(log, st, f);
    NoStaleAppend(st, f);
    RecalledAppend(st, f);
  }

  lemma MoveKeeps(log: seq<Entry>, st: Stream, m: Move)
    requires StreamInv(log, st) && CanMove(log, st, m) && 0 <= st.after
    ensures StreamInv(log, Moved(log, st, m))
  {
    match m
    case FinishRead(n) => FetchKeeps(log, st, n);
    case DeliverRecord(fault) =>
      DeliverKeepsOrder(log, st, fault);
      DeliverKeepsPage(log, st, fault);
      DeliverKeepsContexts(st, fault);
    case AdvanceCursor => AdvanceKeeps(log, st);
    case EmitUpdate => EmitKeeps(log, st, OtherFrame, Polling);
    case EmitDelta(valid, context) =>
      if valid && (context == "" || context !in st.completed) {
        EmitKeeps(log, st, DeltaFrame(context), Polling);
      }
    case Stop(report) =>
      if report { EmitKeeps(log, st, OtherFrame, Stopped); }
    case _ =>
  }

  lemma SignalKeeps(log: seq<Entry>, st: Stream, frontier: nat)
    requires StreamInv(log, st) && frontier <= |log|
    ensures StreamInv(log, Signal(st, frontier))
  {
  }

  lemma SkipKeeps(log: seq<Entry>, st: Stream, frontier: nat)
    requires StreamInv(log, st) && frontier <= |log| && frontier <= st.cursor
    ensures StreamInv(log, Skip(st, frontier))
  {
  }

  lemma SliceGrows(log: seq<Entry>, e: Entry, i: nat, j: nat)
    requires i <= j <= |log|
    ensures (log + [e])[i..j] == log[i..j]
  {
  }

  lemma FetchedGrows(log: seq<Entry>, e: Entry, page: seq<Entry>, base: int, next: nat)
    requires Fetched(log, page, base, next)
    ensures Fetched(log + [e], page, base, next)
  {
    SliceGrows(log, e, base, base + |page|);
  }

  lemma PageHeldGrows(log: seq<Entry>, st: Stream, e: Entry)
    requires PageHeld(log, st)
    ensures PageHeld(log + [e], st)
  {
    if st.phase.Writing? {
      FetchedGrows(log, e, st.phase.page, st.after - st.phase.next, st.phase.next);
    } else if st.phase.Advancing? {
      FetchedGrows(log, e, st.phase.page, st.after - st.phase.next - 1, st.phase.next);
    }
  }

  lemma AppendKeeps(log: seq<Entry>, st: Stream, e: Entry)
    requires StreamInv(log, st) && e.sequence == |log| + 1
    ensures StreamInv(log + [e], st)
  {
    var n := |Events(st.frames)|;
    if n > 0 { SliceGrows(log, e, st.start, st.start + n); }
    PageHeldGrows(log, st, e);
  }

  lemma AdmitKeeps(log: seq<Entry>, st: Stream, closed: bool)
    requires StreamInv(log, st) && st.phase.Connecting?
    ensures StreamInv(log, st.(phase := if closed then Stopped else Reading))
  {
  }

  lemma EffectKeeps(log: seq<Entry>, st: Stream, e: Effect)
    requires StreamInv(log, st) && CanAffect(log, st, e)
    ensures StreamInv(LogAfter(log, e), Affected(log, st, e))
  {
    match e
    case Stays =>
    case Grows(entry) => AppendKeeps(log, st, entry);
    case Moves(m) => MoveKeeps(log, st, m);
    case Signalled(f) => SignalKeeps(log, st, f);
    case Skipped(f) => SkipKeeps(log, st, f);
    case Admitted(closed) => AdmitKeeps(log, st, closed);
  }

  /** What a move adds to the frames: the next event of the log, a best-effort frame, an error frame,
      or nothing. A delta is added exactly if it is well-formed and no frame so far carries the
      output of its model call. */
  ghost function Added(log: seq<Entry>, st: Stream, m: Move): seq<Frame> {
    match m
    case DeliverRecord(fault) =>
      var at := st.start + |Events(st.frames)|;
      if !(0 <= at < |log|) then []
      else [EventFrame(log[at])] + (if fault && log[at].output && log[at].context != "" then [OtherFrame] else [])
    case EmitUpdate => [OtherFrame]
    case EmitDelta(valid, context) => if valid && !CompletedIn(st.frames, context) then [DeltaFrame(context)] else []
    case Stop(report) => if report then [OtherFrame] else []
    case _ => []
  }

  lemma MoveAdds(log: seq<Entry>, st: Stream, m: Move)
    requires StreamInv(log, st) && CanMove(log, st, m) && 0 <= st.after
    ensures Moved(log, st, m).frames == st.frames + Added(log, st, m)
    ensures m.DeliverRecord? ==> 0 <= st.start + |Events(st.frames)| < |log|
  {
    if m.DeliverRecord? {
      NextInOrder(log, st);
      assert st.after == st.start + |Events(st.frames)|;
    }
  }

  /** A wakeup is pending: the slot is full, or the reader is about to read, or has gone. */
  predicate Awake(st: Stream) {
    st.slot || st.phase.Reading? || st.phase.Stopped?
  }

  /** Only the start of a durable read puts a pending wakeup to rest. */
  lemma AwakeUntilRead(log: seq<Entry>, st: Stream, e: Effect)
    requires CanAffect(log, st, e) && Awake(st) && e != Moves(BeginRead)
    ensures Awake(Affected(log, st, e))
  {
  }

  /** A best-effort frame of the wait loop. */
  predicate BestEffort(m: Move) {
    m.EmitUpdate? || m.EmitDelta?
  }

  /** After one frame raced past a pending wakeup, the reader polls the slot before anything else. */
  predicate Yielding(st: Stream) {
    (st.slot && st.phase.Polling?) || st.phase.Reading? || st.phase.Stopped?
  }

  lemma YieldsUntilRead(log: seq<Entry>, st: Stream, e: Effect)
    requires CanAffect(log, st, e) && Yielding(st) && e != Moves(BeginRead)
    ensures Yielding(Affected(log, st, e)) && !(e.Moves? && BestEffort(e.move))
  {
  }

  /** The reader is waiting, or about to, and nothing has woken it. */
  predicate Resting(st: Stream) {
    !st.slot && (st.phase.Polling? || st.phase.Parked? || st.phase.Stopped?)
  }

  lemma RestsUntilSignal(log: seq<Entry>, st: Stream, e: Effect)
    requires CanAffect(log, st, e) && Resting(st) && !e.Signalled?
    ensures Resting(Affected(log, st, e)) && e != Moves(BeginRead)
  {
  }

  /** When a reader goes back to reading: when it is admitted, when it finds the slot full, and after a
      page of a hundred events; never after a shorter one. */
  lemma ReadsAgainIff(log: seq<Entry>, st: Stream, e: Effect)
    requires CanAffect(log, st, e) && !st.phase.Reading? && (st.phase.Advancing? ==> st.phase.next < |st.phase.page|)
    ensures Affected(log, st, e).phase.Reading? <==>
      || e == Admitted(false)
      || ((e == Moves(PollSlot) || e == Moves(TakeSlot)) && st.slot)
      || (e == Moves(AdvanceCursor) && st.phase.next + 1 == |st.phase.page| == 100)
  {
  }

  /** A blocked stream has written everything that was ever announced to it. */
  lemma BlockedIsCaughtUp(log: seq<Entry>, st: Stream)
    requires StreamInv(log, st) && Blocked(st) && st.start <= st.due
    ensures st.due <= st.cursor == st.after
    ensures Events(st.frames) == log[st.start..st.after]
  {
  }

  /** A client that resumes a stream with the last id it received, however many frames the old
      connection wrote after that, sees the log as if it had never disconnected. */
  lemma ResumeContinues(log: seq<Entry>, x: Stream, y: Stream, received: nat, afterSequence: int, hasAfter: bool)
    requires StreamInv(log, x) && StreamInv(log, y)
    requires 0 < received <= |Events(x.frames)| && 0 <= afterSequence
    requires ChooseStart(afterSequence, hasAfter, Events(x.frames)[received - 1].sequence, true) == StartAt(y.start)
    ensures x.start + received + |Events(y.frames)| <= |log|
    ensures Events(x.frames)[..received] + Events(y.frames)
         == log[x.start..x.start + received + |Events(y.frames)|]
  {
    var n := x.start + received;
    assert Events(x.frames)[received - 1] == log[n - 1];
    assert y.start == n;
    assert Events(x.frames)[..received] == log[x.start..n];
    if |Events(y.frames)| > 0 {
      assert log[x.start..n] + log[n..n + |Events(y.frames)|] == log[x.start..n + |Events(y.frames)|];
    } else {
      assert Events(y.frames) == [];
    }
  }

  // ----- the record loop -----

  /** The moves of the reader through the rest of its page, with no fault. */
  function WholePage(st: Stream): Stream
    requires st.phase.Writing? && st.phase.next < |st.phase.page|
    decreases |st.phase.page| - st.phase.next
  {
    var st' := Advance(Deliver(st, false));
    if st'.phase.Writing? then WholePage(st') else st'
  }

  /** The fields of a connection that the loop of streamAgentEvents updates in place. */
  class Connection {
    const agent: int
    const start: int
    var after: int
    var cursor: int
    var completed: set<string>
    var frames: seq<Frame>

    constructor (agent: int, start: int)
      ensures this.agent == agent && this.start == start
      ensures after == start && cursor == start && completed == {} && frames == []
    {
      this.agent, this.start, after, cursor, completed, frames := agent, start, start, start, {}, [];
    }

    ghost function AsStream(slot: bool, due: nat, phase: Phase): Stream
      reads this
    {
      Stream(agent, start, after, cursor, slot, due, phase, frames, completed)
    }

    /** One record of the page, without a fault. */
    method WriteRecord(record: Entry)
      modifies this
      ensures frames == old(frames) + [EventFrame(record)] && after == record.sequence
      ensures completed == if record.output && record.context != "" then old(completed) + {record.context} else old(completed)
      ensures cursor == if record.sequence <= old(cursor) then old(cursor) else record.sequence
    {
      frames := frames + [EventFrame(record)];
      if record.output && record.context != "" {
        completed := completed + {record.context};
      }
      after := record.sequence;
      if after > cursor {
        cursor := after;
      }
    }

    /** The record loop does what the reader's moves do, one after another. */
    method WritePage(records: seq<Entry>, ghost slot: bool, ghost due: nat)
      requires records != []
      modifies this
      ensures AsStream(slot, due, PageDone(records)) == WholePage(old(AsStream(slot, due, Writing(records, 0))))
    {
      var i := 0;
      while i < |records|
        invariant 0 <= i <= |records|
        invariant i < |records| ==>
          WholePage(AsStream(slot, due, Writing(records, i))) == WholePage(old(AsStream(slot, due, Writing(records, 0))))
        invariant i == |records| ==>
          AsStream(slot, due, PageDone(records)) == WholePage(old(AsStream(slot, due, Writing(records, 0))))
      {
        ghost var st := AsStream(slot, due, Writing(records, i));
        WriteRecord(records[i]);
        i := i + 1;
        assert AsStream(slot, due, Advance(Deliver(st, false)).phase) == Advance(Deliver(st, false));
      }
    }

    /** writeModelOutputDeltaFrame. */
    method WriteModelOutputDelta(valid: bool, context: string, ghost slot: bool, ghost due: nat)
      modifies this`frames
      ensures AsStream(slot, due, Polling) == WriteDelta(old(AsStream(slot, due, Parked)), valid, context)
      ensures Remembered(old(AsStream(slot, due, Parked))) ==>
        frames == if valid && !CompletedIn(old(frames), context) then old(frames) + [DeltaFrame(context)] else old(frames)
    {
      if !valid {
        return;
      }
      if context != "" {
        if context in completed {
          return;
        }
      }
      frames := frames + [DeltaFrame(context)];
    }
  }
}
