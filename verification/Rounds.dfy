/** One compaction round on paper (internal/compaction/runner.go, runner_failure.go): what a run does
    with one source, as a relation between the world it starts in, the answers it gets and its next
    step, and whole runs as sequences of such rounds.

    Nothing here reads the log twice: `Runner` proves that its paged reads, with other transactions
    committing in between, come to the same. */
module Rounds {
  import opened Events
  import opened SourceEnds
  import opened Worlds
  import opened Store
  import opened Candidates
  import Selector

  // ----- inputs and results -----

  /** RunInput; zero stands for the nil uuid. */
  datatype Job = Job(plan: Selector.Plan, turnId: nat, openingInputs: nat, opening: int, lock: nat, parent: nat)

  datatype CallState = Started | Succeeded | Failed | Canceled | OtherState
  datatype Recovery = NoRecovery | Retry | OtherRecovery

  datatype Claim = Claim(
    created: bool, claimed: bool, contextId: nat, projectId: nat, agentId: nat, compaction: bool,
    inputSequence: int, sourceEnd: Option<int>, lock: nat, state: CallState, recovery: Recovery)

  datatype RunError =
    | InvalidPlan | ClaimMismatch | OpeningNotRetained | WrongStart | StoreRefused | NotAdvanceable
    | MissingCheckpoint | UnsupportedState | PolicyFailed | Unclassified

  datatype RunResult =
    | Completed(checkpoint: Checkpoint)
    | CompletedEarlier(checkpoint: Checkpoint)
    | RetryScheduled
    | Terminal
    | TerminalFailure(cause: Cause, end: int)
    | RunFailed(error: RunError)

  datatype ErrorKind = ContextWindow | PayloadTooLarge | OtherError

  /** What irreducibleCompactionError says: nothing fits, the policy denies progress, no smaller
      prefix remains, or the smallest prefix failed for its summary or its size. */
  datatype Detail = NothingFits | ProgressDenied | NothingRemains | SmallestNotReduced | SmallestTooLarge

  datatype Cause = SummaryNotReduced | SourceIrreducible(detail: Detail) | Provider(kind: ErrorKind) | UnclassifiedCause

  /** A failure that came from outside: a classified provider error, or anything else. */
  function OutsideCause(kind: Option<ErrorKind>): Cause {
    if kind.Some? then Provider(kind.value) else UnclassifiedCause
  }

  /** The failure says that no smaller source was left. */
  predicate ClaimsSmallest(cause: Cause) {
    cause.SourceIrreducible? && cause.detail != NothingFits && cause.detail != ProgressDenied
  }

  /** shrinkableCompactionFailure */
  predicate Shrinkable(cause: Cause) {
    match cause
    case SummaryNotReduced => true
    case SourceIrreducible(_) => false
    case Provider(kind) => kind == ContextWindow || kind == PayloadTooLarge
    case UnclassifiedCause => false
  }

  datatype StopReason = EndTurn | MaxTokens | WindowExceeded | ToolUse | ErrorStop | UnknownStop | OtherStop

  datatype Reply =
    | Interrupted
    | ReplyError(kind: Option<ErrorKind>)
    | Malformed
    | Response(stop: StopReason, hasToolCalls: bool, summary: string)

  /** validateCompactionResponse: None accepts the summary. */
  function ResponseProblem(r: Reply): Option<Cause>
    requires r.Response?
  {
    match r.stop
    case WindowExceeded => Some(Provider(ContextWindow))
    case OtherStop => Some(Provider(OtherError))
    case EndTurn | MaxTokens => if r.hasToolCalls || r.summary == "" then Some(Provider(OtherError)) else None
    case ToolUse | ErrorStop | UnknownStop =>
      if r.stop != ToolUse || !r.hasToolCalls then Some(Provider(OtherError))
      else if r.hasToolCalls || r.summary == "" then Some(Provider(OtherError)) else None
  }

  /** estimateTokens */
  function Tokens(text: string): nat {
    if text == "" then 0 else |text| / 4 + 1
  }

  /** The estimate counts started groups of four characters, and one more when the last is full. */
  lemma TokensMean(text: string)
    ensures Tokens(text) == 0 <==> text == ""
    ensures text != "" ==> 4 * (Tokens(text) - 1) <= |text| < 4 * Tokens(text)
  {
  }

  /** validateSummaryReduction */
  predicate Reduces(prior: string, source: string, summary: string) {
    var uncompacted := Tokens(prior) + Tokens(source);
    var savings := Max(Tokens(source) / 10, 1);
    uncompacted > 0 && Tokens(summary) < uncompacted && uncompacted - Tokens(summary) >= savings
  }

  // ----- prior checkpoints -----

  /** GetLatestApplicableContextCheckpoint: the last checkpoint whose event the watermark covers. */
  function LatestApplicable(checkpoints: seq<Checkpoint>, watermark: int): Option<Checkpoint> {
    if |checkpoints| == 0 then None
    else if checkpoints[|checkpoints| - 1].eventSequence <= watermark then Some(checkpoints[|checkpoints| - 1])
    else LatestApplicable(checkpoints[..|checkpoints| - 1], watermark)
  }

  function NextStart(checkpoints: seq<Checkpoint>, watermark: int): int {
    var prior := LatestApplicable(checkpoints, watermark);
    if prior.Some? then prior.value.end + 1 else 1
  }

  function PriorSummary(checkpoints: seq<Checkpoint>, watermark: int): string {
    var prior := LatestApplicable(checkpoints, watermark);
    if prior.Some? then prior.value.summary else ""
  }

  /** validate */
  predicate ValidJob(job: Job) {
    var p := job.plan;
    && p.projectId != 0 && p.agentId != 0 && 0 < p.inputSequence && 0 < p.start
    && p.start <= p.end <= p.inputSequence
    && job.turnId != 0 && job.openingInputs > 0 && job.lock != 0 && job.parent != 0
    && 0 < job.opening <= p.inputSequence
  }

  /** validateInitialCompactionClaim */
  predicate MatchesClaim(job: Job, claim: Claim) {
    && claim.created && claim.contextId != 0
    && claim.projectId == job.plan.projectId && claim.agentId == job.plan.agentId && claim.compaction
    && claim.inputSequence == job.plan.inputSequence && claim.sourceEnd == Some(job.plan.end)
    && claim.lock == job.lock
    && ((claim.claimed && claim.state == Started) ||
        (!claim.claimed && claim.state == Failed && claim.recovery == NoRecovery))
  }

  // ----- what a run meets -----

  /** Resolving the model for a run: it is interrupted, fails, or gives the summary model and its
      output allowance. */
  datatype Setup = SetupInterrupted | SetupFails(kind: Option<ErrorKind>) | SetupDone(client: Client, output: int)

  /** The next request with the candidate checkpoint in place: building it fails, it fits, or it is
      over budget after so many checkpoints in a row. */
  datatype Projection = BuildFails(kind: Option<ErrorKind>) | ProjectionFits | OverBudget(count: int)

  /** The store's answer to replacing the source of the call: refused, preempted, or a new claim. */
  datatype Replacement = ReplaceRefused | Preempted | Replaced(claim: Claim)

  /** All the answers a run may get in one round: to its own claims, from the model, from the store to
      its checkpoint, from the retry policy, to recording a failure and to replacing the source. */
  datatype Conditions = Conditions(
    first: Option<Claim>, second: Option<Claim>, setup: Setup, reply: Reply, projection: Projection,
    publication: Publication, retry: bool, recorded: bool, replacement: Replacement)

  // ----- what a run sees -----

  /** A source, the evidence for it and its safe ends. */
  datatype Prefixes = Prefixes(source: seq<Event>, evidence: seq<Event>, ends: seq<int>)

  /** Everything in the world that a round over a job depends on: the source with its safe ends, the
      events after it up to the watermark, whether the opening is unanswered, and whether every
      sequence up to the watermark is present. */
  datatype View = View(prefixes: Prefixes, rest: seq<Event>, unanswered: bool, complete: bool)

  /** The log has a gap somewhere from the plan's start to its watermark. */
  predicate MissesEvents(log: seq<Event>, plan: Selector.Plan) {
    || !Closed(Range(log, plan.start, plan.end), plan.start, plan.end)
    || !Closed(Range(log, plan.start, plan.inputSequence), plan.start, plan.inputSequence)
  }

  /** The evidence reaches past the source only when an input of the source needs it. */
  ghost function Evidence(log: seq<Event>, plan: Selector.Plan): seq<Event> {
    var source := Range(log, plan.start, plan.end);
    if plan.end == plan.inputSequence || !NeedsLaterEvidence(source) then source
    else Range(log, plan.start, plan.inputSequence)
  }

  ghost function PrefixesOf(w: World, plan: Selector.Plan): Prefixes {
    Prefixes(Range(w.log, plan.start, plan.end), Evidence(w.log, plan), RangeEnds(w, plan.start, plan.end, plan.inputSequence))
  }

  ghost function Seen(w: World, job: Job): View {
    View(PrefixesOf(w, job.plan), Range(w.log, job.plan.end + 1, job.plan.inputSequence),
         Unanswered(w.log, job.opening, job.plan.inputSequence), !MissesEvents(w.log, job.plan))
  }

  predicate Unrenderable(events: seq<Event>) {
    exists i :: 0 <= i < |events| && Render([events[i]]).None?
  }

  /** A store call failed, the log has a gap, or an event cannot be rendered. */
  ghost predicate Disturbed(v: View, failed: bool) {
    failed || !v.complete || Unrenderable(v.prefixes.source)
  }

  // ----- admission -----

  /** The claim a run works under: the one it was handed, else the store's answer to its own claim,
      or to the next one when the first is a scheduled retry. None when the store refuses. */
  function WorkingClaim(initial: Option<Claim>, first: Option<Claim>, second: Option<Claim>): Option<Claim> {
    if initial.Some? then initial
    else if first.Some? && !first.value.claimed && first.value.state == Failed && first.value.recovery == Retry then second
    else first
  }

  /** The run may go to work: its job is valid, it holds a matching claim, an unanswered opening is out
      of the source, and the source starts where the latest applicable checkpoint ended. */
  predicate Admissible(unanswered: bool, checkpoints: seq<Checkpoint>, job: Job, initial: Option<Claim>, c: Conditions) {
    var claim := WorkingClaim(initial, c.first, c.second);
    && ValidJob(job) && (initial.Some? ==> MatchesClaim(job, initial.value)) && claim.Some? && claim.value.claimed
    && !(unanswered && job.opening <= job.plan.end)
    && job.plan.start == NextStart(checkpoints, job.plan.inputSequence)
  }

  /** In plain terms: a run that was handed a claim works under it if it matches and is claimed; any other
      under its own claim, or under the next one if its own turns out to be a scheduled retry. */
  lemma AdmissibleMeans(unanswered: bool, checkpoints: seq<Checkpoint>, job: Job, initial: Option<Claim>, c: Conditions)
    ensures Admissible(unanswered, checkpoints, job, initial, c) <==>
      && ValidJob(job) && (unanswered ==> job.plan.end < job.opening)
      && job.plan.start == NextStart(checkpoints, job.plan.inputSequence)
      && match initial
         case Some(claim) => claim.claimed && MatchesClaim(job, claim)
         case None =>
           && c.first.Some?
           && (c.first.value.claimed ||
               (c.first.value.state == Failed && c.first.value.recovery == Retry && c.second.Some? && c.second.value.claimed))
  {
  }

  /** What a run reports that does not hold its call: the outcome of the run that does, or did. */
  predicate Unclaimed(produced: map<nat, Checkpoint>, claim: Claim, failed: bool, result: RunResult) {
    match claim.state
    case Succeeded =>
      || (failed && result == RunFailed(StoreRefused))
      || (claim.contextId in produced && result == CompletedEarlier(produced[claim.contextId]))
      || (claim.contextId !in produced && result == RunFailed(MissingCheckpoint))
    case Failed => result == if claim.recovery == Retry then RetryScheduled else Terminal
    case Canceled => result == Terminal
    case Started => result == RunFailed(NotAdvanceable)
    case OtherState => result == RunFailed(UnsupportedState)
  }

  /** What a run reports that may not go to work; the first reason counts. */
  predicate TurnedAway(unanswered: bool, checkpoints: seq<Checkpoint>, produced: map<nat, Checkpoint>, job: Job,
                       initial: Option<Claim>, c: Conditions, failed: bool, result: RunResult) {
    var claim := WorkingClaim(initial, c.first, c.second);
    if !ValidJob(job) then result == RunFailed(InvalidPlan)
    else if initial.Some? && !MatchesClaim(job, initial.value) then result == RunFailed(ClaimMismatch)
    else if initial.Some? && !initial.value.claimed then Unclaimed(produced, initial.value, failed, result)
    else
      || (failed && result == RunFailed(StoreRefused))
      || if unanswered && job.opening <= job.plan.end then result == RunFailed(OpeningNotRetained)
         else if job.plan.start != NextStart(checkpoints, job.plan.inputSequence) then result == RunFailed(WrongStart)
         else if claim.None? then result == RunFailed(StoreRefused)
         else !claim.value.claimed && Unclaimed(produced, claim.value, failed, result)
  }

  // ----- the attempt at the planned source -----

  datatype Attempt =
    | Abort(error: RunError)
    | Fails(cause: Cause)
    | Shrinks(end: int)
    | Ready(text: string)
    | Summarized(summary: string)

  predicate FromOutside(cause: Cause) {
    cause.Provider? || cause.UnclassifiedCause?
  }

  /** fit is what the search for the largest request makes of the safe ends. */
  ghost predicate Searched(p: Prefixes, plan: Selector.Plan, setup: Setup, fit: FitResult)
    requires setup.SetupDone?
  {
    var source := Source(plan.start, p.source, setup.client, setup.output);
    var turns := CompleteTurnEnds(p.source, p.evidence, p.ends);
    if |p.ends| == 0 then fit == NoRequest
    else if fit.PrepareFailed? then exists end :: (end in p.ends || end in turns) && Unpreparable(source, end)
    else exists k :: Decides(source, p.ends, turns, k, fit)
  }

  /** What follows from the search: a failure, a smaller source, or a request over the whole source. */
  ghost predicate Follow(p: Prefixes, plan: Selector.Plan, fit: FitResult, r: Attempt) {
    match fit
    case PrepareFailed => r.Fails? && FromOutside(r.cause)
    case NoRequest => r == Fails(SourceIrreducible(NothingFits))
    case Chosen(request) =>
      if request.end < plan.end then r == Shrinks(request.end)
      else request.end == plan.end && Render(p.source).Some? && r == Ready(Render(p.source).value)
  }

  ghost predicate Prepared(p: Prefixes, plan: Selector.Plan, setup: Setup, disturbed: bool, r: Attempt) {
    match setup
    case SetupInterrupted => r == Abort(Unclassified)
    case SetupFails(kind) => r == Fails(OutsideCause(kind))
    case SetupDone(_, _) =>
      || (disturbed && r.Fails? && FromOutside(r.cause))
      || exists fit :: Searched(p, plan, setup, fit) && Follow(p, plan, fit, r)
  }

  /** The frontier moves and source remains to be summarised in a next step. */
  predicate Progresses(rest: seq<Event>, checkpoints: seq<Checkpoint>, job: Job, protect: bool) {
    && NextStart(checkpoints, job.plan.inputSequence) - 1 < job.plan.end
    && Any(rest, Summarizable(protect, job.opening))
  }

  /** The projected next request allows publishing: it fits, or it is over budget but progress can be
      made step by step and fewer than three checkpoints came in a row. */
  predicate MayProject(rest: seq<Event>, checkpoints: seq<Checkpoint>, job: Job, protect: bool, projection: Projection) {
    match projection
    case BuildFails(_) => false
    case ProjectionFits => true
    case OverBudget(count) => Progresses(rest, checkpoints, job, protect) && 0 <= count < 3
  }

  predicate Projected(rest: seq<Event>, checkpoints: seq<Checkpoint>, job: Job, protect: bool, summary: string,
                      projection: Projection, r: Attempt) {
    if projection.BuildFails? then
      r == if projection.kind.None? then Abort(Unclassified) else Fails(Provider(projection.kind.value))
    else if MayProject(rest, checkpoints, job, protect, projection) then r == Summarized(summary)
    else if Progresses(rest, checkpoints, job, protect) && projection.count < 0 then r == Abort(PolicyFailed)
    else r == Fails(SourceIrreducible(ProgressDenied))
  }

  /** The response holds a summary: it ended normally or at its limit, without tool calls, and is not
      empty. */
  predicate HoldsSummary(reply: Reply) {
    reply.Response? && (reply.stop == EndTurn || reply.stop == MaxTokens) && !reply.hasToolCalls && reply.summary != ""
  }

  lemma AcceptedResponse(reply: Reply)
    requires reply.Response?
    ensures ResponseProblem(reply).None? <==> HoldsSummary(reply)
    ensures ResponseProblem(reply).Some? ==>
      ResponseProblem(reply).value == Provider(if reply.stop == WindowExceeded then ContextWindow else OtherError)
  {
  }

  /** The reduction check is one inequality: the summary and the required saving fit into what they
      replace. */
  lemma ReducesMeans(prior: string, source: string, summary: string)
    ensures Reduces(prior, source, summary) <==>
      Tokens(summary) + Max(Tokens(source) / 10, 1) <= Tokens(prior) + Tokens(source)
  {
  }

  /** The summary and the required saving fit into what the summary replaces. */
  predicate Saves(prior: string, source: string, summary: string) {
    Tokens(summary) + Max(Tokens(source) / 10, 1) <= Tokens(prior) + Tokens(source)
  }

  /** What the text of a response comes to. */
  predicate SummaryJudged(rest: seq<Event>, checkpoints: seq<Checkpoint>, job: Job, protect: bool, text: string, reply: Reply,
                          projection: Projection, r: Attempt)
    requires reply.Response?
  {
    if reply.stop == WindowExceeded then r == Fails(Provider(ContextWindow))
    else if !HoldsSummary(reply) then r == Fails(Provider(OtherError))
    else if !Saves(PriorSummary(checkpoints, job.plan.inputSequence), text, reply.summary) then r == Fails(SummaryNotReduced)
    else Projected(rest, checkpoints, job, protect, reply.summary, projection, r)
  }

  /** What the model's reply comes to. A truncated reply shrinks the source if it can be shrunk. */
  ghost predicate Judged(v: View, checkpoints: seq<Checkpoint>, job: Job, protect: bool, text: string, reply: Reply,
                         projection: Projection, r: Attempt) {
    match reply
    case Interrupted => r == Abort(Unclassified)
    case ReplyError(kind) => r == if kind.None? then Abort(Unclassified) else Fails(Provider(kind.value))
    case Malformed => r == Fails(Provider(OtherError))
    case Response(stop, _, _) =>
      if stop == MaxTokens && Below(v.prefixes.ends, job.plan.end) != [] then
        r.Shrinks? && PicksBelow(v.prefixes, job.plan, r.end)
      else SummaryJudged(v.rest, checkpoints, job, protect, text, reply, projection, r)
  }

  ghost predicate Attempted(v: View, checkpoints: seq<Checkpoint>, job: Job, c: Conditions, failed: bool, r: Attempt) {
    var disturbed := Disturbed(v, failed);
    exists ready :: Prepared(v.prefixes, job.plan, c.setup, disturbed, ready) &&
      if ready.Ready? then
        || (disturbed && r == Abort(StoreRefused))
        || Judged(v, checkpoints, job, v.unanswered, ready.text, c.reply, c.projection, r)
      else r == ready
  }

  // ----- the next step -----

  /** The next smaller source: of the safe ends below the current one, the latest complete turn within
      half the rendered bytes, else the first complete turn, else the latest safe end within half,
      else the first. */
  ghost predicate PicksBelow(p: Prefixes, plan: Selector.Plan, end: int) {
    var below := Below(p.ends, plan.end);
    |below| > 0 &&
    Preferred(below, CompleteTurnEnds(p.source, p.evidence, below),
              Within(PrefixTable(p.source), plan.start, RenderedLength(p.source) / 2), end)
  }

  /** What a round comes to: the end of the run, or another source to replace the planned one. */
  datatype Decision = Conclude(result: RunResult) | Replace(end: int)

  /** The end of a run that failed for good or for now: an irreducible source is never retried. */
  function RecordedAs(job: Job, c: Conditions, cause: Cause): RunResult {
    if !c.recorded then RunFailed(StoreRefused)
    else if c.retry && !cause.SourceIrreducible? then RetryScheduled
    else TerminalFailure(cause, job.plan.end)
  }

  /** The next smaller source if there is one, and the given cause if not. */
  ghost predicate FallsBack(v: View, job: Job, c: Conditions, failed: bool, otherwise: Cause, d: Decision) {
    || (Disturbed(v, failed) && d == Conclude(RunFailed(StoreRefused)))
    || (Below(v.prefixes.ends, job.plan.end) == [] && d == Conclude(RecordedAs(job, c, otherwise)))
    || (d.Replace? && PicksBelow(v.prefixes, job.plan, d.end))
  }

  /** A summary that saves nothing and a request too large for the model call for a smaller source;
      every other failure is recorded. */
  ghost predicate AfterFailure(v: View, job: Job, c: Conditions, failed: bool, cause: Cause, d: Decision) {
    if cause == SummaryNotReduced then FallsBack(v, job, c, failed, SourceIrreducible(SmallestNotReduced), d)
    else if cause == Provider(ContextWindow) || cause == Provider(PayloadTooLarge) then
      FallsBack(v, job, c, failed, SourceIrreducible(SmallestTooLarge), d)
    else d == Conclude(RecordedAs(job, c, cause))
  }

  /** The checkpoint of a round, unless its watermark or its end has one already. */
  predicate Publishes(checkpoints: seq<Checkpoint>, job: Job, summary: string, d: Decision) {
    var p := job.plan;
    if Unpublished(checkpoints, p.inputSequence, p.end) then
      d.Conclude? && d.result.Completed? &&
      d.result.checkpoint == Checkpoint(p.start, p.end, p.inputSequence, d.result.checkpoint.eventSequence, summary)
    else d == Conclude(RunFailed(StoreRefused))
  }

  ghost predicate AfterAttempt(v: View, checkpoints: seq<Checkpoint>, job: Job, c: Conditions, failed: bool, attempt: Attempt, d: Decision) {
    match attempt
    case Ready(_) => false
    case Abort(error) => d == Conclude(RunFailed(error))
    case Fails(cause) => AfterFailure(v, job, c, failed, cause, d)
    case Shrinks(end) => d == Replace(end)
    case Summarized(summary) =>
      match c.publication
      case Accepts => Publishes(checkpoints, job, summary, d)
      case FindsUnsafe => FallsBack(v, job, c, failed, SourceIrreducible(NothingRemains), d)
      case Refuses => d == Conclude(RunFailed(StoreRefused))
  }

  datatype Next = Stop(result: RunResult) | GoOn(end: int)

  /** A source is replaced only if the store agrees. */
  function NextFrom(c: Conditions, d: Decision): Next {
    match d
    case Conclude(result) => Stop(result)
    case Replace(end) =>
      match c.replacement
      case ReplaceRefused => Stop(RunFailed(StoreRefused))
      case Preempted => Stop(Terminal)
      case Replaced(_) => GoOn(end)
  }

  /** One round: the run is turned away, or makes an attempt and takes the step that follows from it. */
  ghost predicate Round(v: View, checkpoints: seq<Checkpoint>, produced: map<nat, Checkpoint>, job: Job, initial: Option<Claim>,
                        c: Conditions, failed: bool, next: Next) {
    || (next.Stop? && TurnedAway(v.unanswered, checkpoints, produced, job, initial, c, failed, next.result))
    || (Admissible(v.unanswered, checkpoints, job, initial, c) &&
        exists attempt, d :: Works(v, checkpoints, job, c, failed, attempt, d) && next == NextFrom(c, d))
  }

  ghost predicate Works(v: View, checkpoints: seq<Checkpoint>, job: Job, c: Conditions, failed: bool, attempt: Attempt, d: Decision) {
    Attempted(v, checkpoints, job, c, failed, attempt) && AfterAttempt(v, checkpoints, job, c, failed, attempt, d)
  }

  // ----- runs -----

  function Shrunk(job: Job, end: int): Job {
    job.(plan := job.plan.(end := end))
  }

  /** What a run begins with: the world and the store's checkpoints. */
  datatype Scene = Scene(world: World, checkpoints: seq<Checkpoint>, produced: map<nat, Checkpoint>)

  /** A run over the job tried exactly these source ends, one round after the other, and ended with
      the result, every round as a round in the scene is. */
  ghost predicate Runs(s: Scene, job: Job, initial: Option<Claim>, env: nat -> Conditions, n: nat, ends: seq<int>,
                       failed: bool, result: RunResult) {
    Steps(RoundIn(s, failed), job, initial, env, n, ends, result)
  }

  ghost function RoundIn(s: Scene, failed: bool): (Job, Option<Claim>, Conditions, Next) -> bool {
    (job: Job, claim: Option<Claim>, c: Conditions, next: Next) =>
      Round(Seen(s.world, job), s.checkpoints, s.produced, job, claim, c, failed, next)
  }

  /** Rounds over these ends, each but the last going on to the next end. */
  ghost predicate Steps(round: (Job, Option<Claim>, Conditions, Next) -> bool, job: Job, initial: Option<Claim>,
                        env: nat -> Conditions, n: nat, ends: seq<int>, result: RunResult) {
    && |ends| > 0 && ends[0] == job.plan.end
    && forall i :: 0 <= i < |ends| ==> StepAt(round, job, initial, env, n, ends, result, i)
  }

  /** Round i is over the i-th end, under the conditions env(n + i), on the claim that the replacement
      of the source before it gave. */
  ghost predicate StepAt(round: (Job, Option<Claim>, Conditions, Next) -> bool, job: Job, initial: Option<Claim>,
                         env: nat -> Conditions, n: nat, ends: seq<int>, result: RunResult, i: nat)
    requires i < |ends|
  {
    && (i + 1 < |ends| ==> env(n + i).replacement.Replaced?)
    && round(Shrunk(job, ends[i]), if i == 0 then initial else ClaimAfter(env(n + i - 1)), env(n + i), NextOf(ends[i + 1..], result))
  }

  /** The claim under which the next round works. */
  function ClaimAfter(c: Conditions): Option<Claim> {
    if c.replacement.Replaced? then Some(c.replacement.claim) else None
  }

  function NextOf(more: seq<int>, result: RunResult): Next {
    if more == [] then Stop(result) else GoOn(more[0])
  }

  /** What is left of a run after its round n: nothing, or a run over a smaller source on a new claim. */
  ghost predicate GoesOn(s: Scene, job: Job, env: nat -> Conditions, n: nat, more: seq<int>, failed: bool, result: RunResult) {
    more != [] ==>
      env(n).replacement.Replaced? &&
      Runs(s, Shrunk(job, more[0]), ClaimAfter(env(n)), env, n + 1, more, failed, result)
  }

  /** A round, and the rounds after it, follow one another. */
  lemma StepsFrom(round: (Job, Option<Claim>, Conditions, Next) -> bool, job: Job, initial: Option<Claim>,
                  env: nat -> Conditions, n: nat, more: seq<int>, result: RunResult)
    requires round(job, initial, env(n), NextOf(more, result))
    requires more != [] ==>
      env(n).replacement.Replaced? && Steps(round, Shrunk(job, more[0]), ClaimAfter(env(n)), env, n + 1, more, result)
    ensures Steps(round, job, initial, env, n, [job.plan.end] + more, result)
  {
    var ends := [job.plan.end] + more;
    forall i | 0 <= i < |ends| ensures StepAt(round, job, initial, env, n, ends, result, i) {
      if i == 0 {
        assert Shrunk(job, ends[0]) == job && ends[1..] == more;
      } else {
        assert StepAt(round, Shrunk(job, more[0]), ClaimAfter(env(n)), env, n + 1, more, result, i - 1);
        assert more[i..] == ends[i + 1..];
      }
    }
  }

  /** Rounds of one kind are rounds of another, if each is. */
  lemma StepsImply(p: (Job, Option<Claim>, Conditions, Next) -> bool, q: (Job, Option<Claim>, Conditions, Next) -> bool,
                   job: Job, initial: Option<Claim>, env: nat -> Conditions, n: nat, ends: seq<int>, result: RunResult)
    requires Steps(p, job, initial, env, n, ends, result)
    requires forall end, claim, c, next :: p(Shrunk(job, end), claim, c, next) ==> q(Shrunk(job, end), claim, c, next)
    ensures Steps(q, job, initial, env, n, ends, result)
  {
    forall i | 0 <= i < |ends| ensures StepAt(q, job, initial, env, n, ends, result, i) {
      assert StepAt(p, job, initial, env, n, ends, result, i);
    }
  }

  // ----- a failed store call only adds to what a round may do -----

  lemma AttemptedMonotone(v: View, checkpoints: seq<Checkpoint>, job: Job, c: Conditions, failed: bool, failed': bool, attempt: Attempt)
    requires (failed ==> failed') && Attempted(v, checkpoints, job, c, failed, attempt)
    ensures Attempted(v, checkpoints, job, c, failed', attempt)
  {
    var ready :| Prepared(v.prefixes, job.plan, c.setup, Disturbed(v, failed), ready) &&
      if ready.Ready? then
        || (Disturbed(v, failed) && attempt == Abort(StoreRefused))
        || Judged(v, checkpoints, job, v.unanswered, ready.text, c.reply, c.projection, attempt)
      else attempt == ready;
    assert Prepared(v.prefixes, job.plan, c.setup, Disturbed(v, failed'), ready);
  }

  lemma WorksMonotone(v: View, checkpoints: seq<Checkpoint>, job: Job, c: Conditions, failed1: bool, failed2: bool, failed: bool,
                      attempt: Attempt, d: Decision)
    requires failed1 || failed2 ==> failed
    requires Attempted(v, checkpoints, job, c, failed1, attempt) && AfterAttempt(v, checkpoints, job, c, failed2, attempt, d)
    ensures Works(v, checkpoints, job, c, failed, attempt, d)
  {
    AttemptedMonotone(v, checkpoints, job, c, failed1, failed, attempt);
  }

  lemma RoundMonotone(v: View, checkpoints: seq<Checkpoint>, produced: map<nat, Checkpoint>, job: Job, initial: Option<Claim>,
                      c: Conditions, failed: bool, failed': bool, next: Next)
    requires (failed ==> failed') && Round(v, checkpoints, produced, job, initial, c, failed, next)
    ensures Round(v, checkpoints, produced, job, initial, c, failed', next)
  {
    if Admissible(v.unanswered, checkpoints, job, initial, c) {
      if attempt, d :| Works(v, checkpoints, job, c, failed, attempt, d) && next == NextFrom(c, d) {
        WorksMonotone(v, checkpoints, job, c, failed, failed, failed', attempt, d);
      }
    }
  }
}
