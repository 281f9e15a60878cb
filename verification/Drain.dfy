/** Drain coalescing on a daemon socket: two flags under a lock, and a drain loop that is spawned
    when work arrives and ends when none is queued. */
module Drain {
  /** Where a drain loop is: about to look at its context, past that check and about to start or
      to give up, inside drainWork, or about to look at the queue again. */
  datatype Pc = Top | Entering | Exiting | Working | Finishing

  datatype Loop = Loop(pc: Pc, ctx: int)

  /** The counters only record history: calls that returned true, passes begun, requests dropped
      by a cancelled loop. */
  datatype Socket = Socket(
    closed: bool, cancelled: set<int>, queued: bool, running: bool, loops: map<int, Loop>,
    accepted: nat, begun: nat, dropped: nat)

  const NEW_SOCKET := Socket(false, {}, false, false, map[], 0, 0, 0)

  /** Enqueue is the locked part of enqueueDrain: a call can reach it on a socket that closes
      right after the call looked. Refuse is the call that found the socket closed. */
  datatype Action =
    | Enqueue(ctx: int, spawned: int)
    | Refuse
    | Cancel(ctx: int)
    | Close
    | Pass(l: int)
    | Fail(l: int)
    | Begin(l: int)
    | Return(l: int)
    | Finish(l: int)
    | Exit(l: int)

  predicate At(s: Socket, l: int, pc: Pc) {
    l in s.loops && s.loops[l].pc == pc
  }

  predicate Enabled(s: Socket, a: Action) {
    match a
    case Enqueue(_, spawned) => spawned !in s.loops
    case Refuse => s.closed
    case Cancel(_) => true
    case Close => true
    case Pass(l) => At(s, l, Top) && s.loops[l].ctx !in s.cancelled
    case Fail(l) => At(s, l, Top) && (s.loops[l].ctx in s.cancelled || s.closed)
    case Begin(l) => At(s, l, Entering)
    case Return(l) => At(s, l, Working)
    case Finish(l) => At(s, l, Finishing)
    case Exit(l) => At(s, l, Exiting)
  }

  /** Whether enqueueDrain returns true. */
  predicate Accepts(queued: bool) {
    !queued
  }

  /** Whether enqueueDrain starts a loop. */
  predicate Spawns(queued: bool, running: bool) {
    !queued && !running
  }

  function ApplyEnqueue(s: Socket, ctx: int, spawned: int): Socket {
    s.(queued := true,
       accepted := s.accepted + (if Accepts(s.queued) then 1 else 0),
       loops := if Spawns(s.queued, s.running) then s.loops[spawned := Loop(Top, ctx)] else s.loops)
  }

  function Goto(s: Socket, l: int, pc: Pc): Socket
    requires l in s.loops
  {
    s.(loops := s.loops[l := s.loops[l].(pc := pc)])
  }

  function Apply(s: Socket, a: Action): Socket
    requires Enabled(s, a)
  {
    match a
    case Enqueue(ctx, spawned) => ApplyEnqueue(s, ctx, spawned)
    case Refuse => s
    case Cancel(ctx) => s.(cancelled := s.cancelled + {ctx})
    case Close => s.(closed := true)
    case Pass(l) => Goto(s, l, Entering)
    case Fail(l) => Goto(s, l, Exiting)
    case Begin(l) => Goto(s, l, Working).(queued := false, running := true, begun := s.begun + 1)
    case Return(l) => Goto(s, l, Finishing)
    case Finish(l) => if s.queued then Goto(s, l, Top) else s.(running := false, loops := s.loops - {l})
    case Exit(l) => s.(queued := false, running := false, loops := s.loops - {l}, dropped := s.dropped + 1)
  }

  // ----- invariant -----

  ghost predicate AtMostOne(s: Socket) {
    forall l, l' :: l in s.loops && l' in s.loops ==> l == l'
  }

  predicate FlagsFit(s: Socket, l: int)
    requires l in s.loops
  {
    match s.loops[l].pc
    case Top => s.queued
    case Entering => s.queued
    case Exiting => s.queued
    case Working => s.running
    case Finishing => s.running
  }

  /** At most one loop is live; one is live exactly when a flag is up; and every call that returned
      true was served by a pass, dropped, or is still queued. */
  ghost predicate Inv(s: Socket) {
    && AtMostOne(s)
    && (s.loops == map[] <==> !s.queued && !s.running)
    && (forall l :: l in s.loops ==> FlagsFit(s, l))
    && s.accepted == s.begun + s.dropped + (if s.queued then 1 else 0)
  }

  lemma OnlyLoop(s: Socket, l: int)
    requires AtMostOne(s) && l in s.loops
    ensures s.loops.Keys == {l}
  {
    forall k | k in s.loops.Keys ensures k == l {
      assert k in s.loops;
    }
  }

  lemma StepKeeps(s: Socket, a: Action)
    requires Inv(s) && Enabled(s, a)
    ensures Inv(Apply(s, a))
  {
    match a
    case Enqueue(ctx, spawned) =>
      if Spawns(s.queued, s.running) { assert spawned in Apply(s, a).loops; }
    case Cancel(_) =>
    case Close =>
    case Refuse =>
    case _ =>
      assert a.l in s.loops;
      OnlyLoop(s, a.l);
      var loops := Apply(s, a).loops;
      assert loops.Keys <= {a.l};
      assert a.l !in loops ==> loops == map[];
  }

  ghost predicate Takes(s: Socket, a: Action, s': Socket) {
    Enabled(s, a) && s' == Apply(s, a)
  }

  ghost predicate IsRun(states: seq<Socket>, actions: seq<Action>) {
    && |states| == |actions| + 1 && states[0] == NEW_SOCKET
    && forall i :: 0 <= i < |actions| ==> Takes(states[i], actions[i], states[i + 1])
  }

  lemma {:induction false} EveryStateIsSound(states: seq<Socket>, actions: seq<Action>, n: nat)
    requires IsRun(states, actions) && n < |states|
    ensures Inv(states[n])
  {
    if n > 0 {
      EveryStateIsSound(states, actions, n - 1);
      assert Takes(states[n - 1], actions[n - 1], states[n]);
      StepKeeps(states[n - 1], actions[n - 1]);
    }
  }

  // ----- every call is served -----

  ghost predicate BeginsBetween(actions: seq<Action>, i: nat, j: nat) {
    exists k :: i < k < j && k < |actions| && actions[k].Begin?
  }

  ghost predicate ExitsBetween(actions: seq<Action>, i: nat, j: nat) {
    exists k :: i < k < j && k < |actions| && actions[k].Exit?
  }

  lemma {:induction false} QueuedUntilServed(states: seq<Socket>, actions: seq<Action>, i: nat, j: nat)
    requires IsRun(states, actions) && i < j < |states| && actions[i].Enqueue?
    ensures states[j].queued || BeginsBetween(actions, i, j) || ExitsBetween(actions, i, j)
  {
    assert Takes(states[j - 1], actions[j - 1], states[j]);
    if j > i + 1 {
      QueuedUntilServed(states, actions, i, j - 1);
      if BeginsBetween(actions, i, j - 1) || actions[j - 1].Begin? {
        assert BeginsBetween(actions, i, j);
      } else if ExitsBetween(actions, i, j - 1) || actions[j - 1].Exit? {
        assert ExitsBetween(actions, i, j);
      }
    }
  }

  /** Once no loop is live, every call that reached the lock, whether it returned true or was
      coalesced, has had a pass that began after it, unless a loop gave up in between. */
  lemma QuietMeansServed(states: seq<Socket>, actions: seq<Action>, i: nat, j: nat)
    requires IsRun(states, actions) && i < j < |states| && actions[i].Enqueue? && states[j].loops == map[]
    ensures BeginsBetween(actions, i, j) || ExitsBetween(actions, i, j)
  {
    EveryStateIsSound(states, actions, j);
    QueuedUntilServed(states, actions, i, j);
  }

  /** A loop that gives up found its context cancelled or the socket closed. */
  ghost predicate ExitsJustified(s: Socket) {
    forall l :: l in s.loops && s.loops[l].pc == Exiting ==> s.loops[l].ctx in s.cancelled || s.closed
  }

  lemma {:induction false} ExitNeedsCancellation(states: seq<Socket>, actions: seq<Action>, n: nat)
    requires IsRun(states, actions) && n < |states|
    ensures ExitsJustified(states[n])
  {
    if n > 0 {
      ExitNeedsCancellation(states, actions, n - 1);
      assert Takes(states[n - 1], actions[n - 1], states[n]);
    }
  }

  lemma {:induction false} CancellationStays(states: seq<Socket>, actions: seq<Action>, k: nat, j: nat)
    requires IsRun(states, actions) && k <= j < |states|
    ensures states[k].cancelled <= states[j].cancelled && (states[k].closed ==> states[j].closed)
  {
    if k < j {
      CancellationStays(states, actions, k, j - 1);
      assert Takes(states[j - 1], actions[j - 1], states[j]);
    }
  }

  /** Loop l, which was live under context c when the call returned, gave up in between: it found
      c cancelled, or the socket closed. */
  ghost predicate GaveUp(states: seq<Socket>, actions: seq<Action>, i: nat, j: nat, l: int, c: int) {
    exists k :: i < k < j && k < |actions| && k < |states| && actions[k] == Exit(l) && (c in states[k].cancelled || states[k].closed)
  }

  /** The loop that the call at i left live, under context c. */
  ghost predicate Serves(s: Socket, l: int, c: int) {
    l in s.loops && s.loops[l].ctx == c
  }

  lemma StillServing(s: Socket, a: Action, l: int, c: int)
    requires Inv(s) && ExitsJustified(s) && Enabled(s, a) && s.queued && Serves(s, l, c) && !a.Begin?
    ensures (a == Exit(l) && (c in s.cancelled || s.closed)) || (a != Exit(l) && Apply(s, a).queued && Serves(Apply(s, a), l, c))
  {
    OnlyLoop(s, l);
    if a.Exit? {
      assert a.l in s.loops.Keys;
    }
  }

  /** What becomes of a call: a pass began after it, or the loop live when it returned gave up
      because its own context ended or the socket closed, or the call is still queued with that loop. */
  lemma {:induction false} FateOfCall(states: seq<Socket>, actions: seq<Action>, i: nat, j: nat, l: int, c: int)
    requires IsRun(states, actions) && i < j < |states| && actions[i].Enqueue? && Serves(states[i + 1], l, c)
    ensures || BeginsBetween(actions, i, j) || GaveUp(states, actions, i, j, l, c)
      || (states[j].queued && Serves(states[j], l, c))
  {
    assert Takes(states[j - 1], actions[j - 1], states[j]);
    if j > i + 1 {
      FateOfCall(states, actions, i, j - 1, l, c);
      if BeginsBetween(actions, i, j - 1) || actions[j - 1].Begin? {
        assert BeginsBetween(actions, i, j);
      } else if GaveUp(states, actions, i, j - 1, l, c) {
        assert GaveUp(states, actions, i, j, l, c);
      } else {
        EveryStateIsSound(states, actions, j - 1);
        ExitNeedsCancellation(states, actions, j - 1);
        StillServing(states[j - 1], actions[j - 1], l, c);
        if actions[j - 1] == Exit(l) { assert GaveUp(states, actions, i, j, l, c); }
      }
    }
  }

  /** A call always leaves a loop live. */
  lemma CallLeavesLoop(states: seq<Socket>, actions: seq<Action>, i: nat)
    requires IsRun(states, actions) && i < |actions| && actions[i].Enqueue?
    ensures states[i + 1].loops != map[] && states[i + 1].queued
  {
    assert Takes(states[i], actions[i], states[i + 1]);
    EveryStateIsSound(states, actions, i + 1);
  }

  /** In every run, a call is served by a pass that begins after it, as long as the socket stays
      open and the context of the loop it left live does not end, whichever other contexts do. */
  lemma ServedUnlessOwnLoopEnds(states: seq<Socket>, actions: seq<Action>, i: nat, j: nat, l: int)
    requires IsRun(states, actions) && i < j < |states| && actions[i].Enqueue? && l in states[i + 1].loops
    requires states[i + 1].loops[l].ctx !in states[j].cancelled && !states[j].closed && states[j].loops == map[]
    ensures BeginsBetween(actions, i, j)
  {
    var c := states[i + 1].loops[l].ctx;
    FateOfCall(states, actions, i, j, l, c);
    if GaveUp(states, actions, i, j, l, c) {
      var k :| i < k < j && k < |actions| && actions[k] == Exit(l) && (c in states[k].cancelled || states[k].closed);
      CancellationStays(states, actions, k, j);
      assert false;
    }
  }

  /** Conversely, a call that was lost was lost to its own loop: that loop gave up after the call,
      with its own context cancelled or the socket closed. */
  lemma LostOnlyToOwnLoop(states: seq<Socket>, actions: seq<Action>, i: nat, j: nat, l: int)
    requires IsRun(states, actions) && i < j < |states| && actions[i].Enqueue? && l in states[i + 1].loops
    requires states[j].loops == map[] && !BeginsBetween(actions, i, j)
    ensures GaveUp(states, actions, i, j, l, states[i + 1].loops[l].ctx)
  {
    FateOfCall(states, actions, i, j, l, states[i + 1].loops[l].ctx);
  }

  // ----- when a call can still be lost -----

  predicate OwnStep(a: Action, l: int) {
    match a
    case Pass(x) => x == l
    case Fail(x) => x == l
    case Begin(x) => x == l
    case Return(x) => x == l
    case Finish(x) => x == l
    case Exit(x) => x == l
    case _ => false
  }

  /** The loop's own steps lead to a quiet socket without a pass beginning. */
  ghost predicate Loses(s: Socket, steps: seq<Action>, l: int)
    decreases |steps|
  {
    if steps == [] then s.loops == map[]
    else OwnStep(steps[0], l) && !steps[0].Begin? && Enabled(s, steps[0]) && Loses(Apply(s, steps[0]), steps[1..], l)
  }

  ghost predicate MayLose(s: Socket, l: int) {
    exists steps: seq<Action> :: LostBy(s, steps, l)
  }

  ghost predicate LostBy(s: Socket, steps: seq<Action>, l: int) {
    Loses(s, steps, l)
  }

  /** The loop has decided to give up, or has yet to look and will find a reason to. */
  predicate Doomed(s: Socket, l: int)
    requires l in s.loops
  {
    s.loops[l].pc == Exiting || (s.loops[l].pc != Entering && (s.loops[l].ctx in s.cancelled || s.closed))
  }

  lemma {:induction false} NotDoomedNeverLoses(s: Socket, steps: seq<Action>, l: int)
    requires Inv(s) && s.queued && l in s.loops && !Doomed(s, l)
    ensures !Loses(s, steps, l)
    decreases |steps|
  {
    if steps != [] && OwnStep(steps[0], l) && !steps[0].Begin? && Enabled(s, steps[0]) {
      StepKeeps(s, steps[0]);
      NotDoomedNeverLoses(Apply(s, steps[0]), steps[1..], l);
    }
  }

  lemma QuietAfterExit(s: Socket, l: int)
    requires Inv(s) && At(s, l, Exiting)
    ensures Loses(s, [Exit(l)], l)
  {
    OnlyLoop(s, l);
    assert Apply(s, Exit(l)).loops.Keys == {};
    assert Loses(Apply(s, Exit(l)), [Exit(l)][1..], l);
  }

  lemma LosesAfter(s: Socket, a: Action, steps: seq<Action>, l: int)
    requires OwnStep(a, l) && !a.Begin? && Enabled(s, a) && Loses(Apply(s, a), steps, l)
    ensures Loses(s, [a] + steps, l)
  {
    assert ([a] + steps)[1..] == steps;
  }

  lemma DoomedMayLose(s: Socket, l: int) returns (steps: seq<Action>)
    requires Inv(s) && s.queued && l in s.loops && Doomed(s, l)
    ensures Loses(s, steps, l)
    decreases match s.loops[l].pc case Exiting => 0 case Top => 1 case Finishing => 2 case Working => 3 case Entering => 4
  {
    if s.loops[l].pc == Exiting {
      QuietAfterExit(s, l);
      return [Exit(l)];
    }
    var a := if s.loops[l].pc == Top then Fail(l) else if s.loops[l].pc == Finishing then Finish(l) else Return(l);
    StepKeeps(s, a);
    var rest := DoomedMayLose(Apply(s, a), l);
    LosesAfter(s, a, rest, l);
    steps := [a] + rest;
  }

  /** Exactly when a queued call can be lost if nothing else happens: when the loop has decided to
      give up, or has not yet passed its check and its own context, not the caller's, is cancelled
      or the socket is closed. */
  lemma CanBeLostIff(s: Socket, l: int)
    requires Inv(s) && s.queued && l in s.loops
    ensures MayLose(s, l) <==> Doomed(s, l)
  {
    if Doomed(s, l) {
      var steps := DoomedMayLose(s, l);
      assert LostBy(s, steps, l);
    } else {
      forall steps: seq<Action> ensures !LostBy(s, steps, l) { NotDoomedNeverLoses(s, steps, l); }
    }
  }

  /** A call can be lost although its own context lives on and the socket stays open: whenever a
      pass runs under another caller's context, the call is coalesced into that loop, and the loop
      gives up if its context ends before the next pass. */
  lemma CoalescedCallCanBeLost(s: Socket, l: int, caller: int, spawned: int)
    requires Inv(s) && At(s, l, Working) && !s.queued && spawned !in s.loops
    requires caller != s.loops[l].ctx && caller !in s.cancelled && !s.closed
    ensures
      var s1 := Apply(s, Enqueue(caller, spawned));
      Enabled(s1, Return(l)) && var s2 := Apply(s1, Return(l));
      Enabled(s2, Finish(l)) && var s3 := Apply(s2, Finish(l));
      Enabled(s3, Cancel(s.loops[l].ctx)) && var s4 := Apply(s3, Cancel(s.loops[l].ctx));
      Enabled(s4, Fail(l)) && var s5 := Apply(s4, Fail(l));
      Enabled(s5, Exit(l)) && var s6 := Apply(s5, Exit(l));
      && s1.accepted == s.accepted + 1 && s6.begun == s.begun && s6.loops == map[]
      && !s6.closed && caller !in s6.cancelled
  {
    OnlyLoop(s, l);
    var s6 := Apply(Apply(Apply(Apply(Apply(Apply(s, Enqueue(caller, spawned)), Return(l)), Finish(l)),
                                Cancel(s.loops[l].ctx)), Fail(l)), Exit(l));
    assert s6.loops.Keys == {};
  }

  /** Such a pass is reached from a new socket. */
  lemma PassUnderAnotherContext() returns (states: seq<Socket>)
    ensures IsRun(states, [Enqueue(0, 7), Pass(7), Begin(7)])
    ensures At(states[3], 7, Working) && !states[3].queued && states[3].loops[7].ctx == 0
    ensures states[3].cancelled == {} && !states[3].closed
  {
    var s1 := Apply(NEW_SOCKET, Enqueue(0, 7));
    var s2 := Apply(s1, Pass(7));
    states := [NEW_SOCKET, s1, s2, Apply(s2, Begin(7))];
    assert Takes(states[0], Enqueue(0, 7), states[1]);
    assert Takes(states[1], Pass(7), states[2]);
    assert Takes(states[2], Begin(7), states[3]);
  }

  // ----- the locked sections and the loop -----

  class DaemonSocket {
    var done: bool
    var drainQueued: bool
    var drainRunning: bool

    constructor ()
      ensures !done && !drainQueued && !drainRunning
    {
      done, drainQueued, drainRunning := false, false, false;
    }

    /** enqueueDrain; `spawn` says that the caller starts a loop. */
    method EnqueueDrain() returns (accepted: bool, spawn: bool)
      modifies this`drainQueued
      ensures old(done) ==> !accepted && !spawn && drainQueued == old(drainQueued)
      ensures !old(done) ==> drainQueued
      ensures !old(done) ==> accepted == Accepts(old(drainQueued)) && spawn == Spawns(old(drainQueued), drainRunning)
    {
      if done {
        return false, false;
      }
      if drainRunning {
        if drainQueued {
          return false, false;
        }
        drainQueued := true;
        return true, false;
      }
      if drainQueued {
        return false, false;
      }
      drainQueued := true;
      return true, true;
    }

    /** drainWork, during which n calls to enqueueDrain arrive. */
    method DrainWork(n: nat)
      requires !done && drainRunning
      modifies this`drainQueued
      ensures drainQueued == (old(drainQueued) || n > 0)
    {
      for i := 0 to n
        invariant drainQueued == (old(drainQueued) || i > 0)
      {
        var _, spawn := EnqueueDrain();
        assert !spawn;
      }
    }

    /** drainLoop, with calls[i] calls arriving during pass i and the context found cancelled at
        the top of pass number `life`. Each pass but the last saw a call, so every call that
        arrives during a pass is followed by another pass unless the context ended first. */
    method DrainLoop(calls: seq<nat>, life: nat) returns (passes: nat)
      requires !done && drainQueued && !drainRunning
      modifies this`drainQueued, this`drainRunning
      ensures !drainQueued && !drainRunning
      ensures forall i :: 0 <= i < passes - 1 ==> i < |calls| && calls[i] > 0
      ensures passes <= life
      ensures passes < life ==> passes > 0 && (passes - 1 < |calls| ==> calls[passes - 1] == 0)
    {
      passes := 0;
      while true
        invariant drainQueued && (drainRunning <==> passes > 0)
        invariant passes <= life && passes <= |calls|
        invariant forall i :: 0 <= i < passes ==> calls[i] > 0
        decreases |calls| - passes
      {
        if passes == life {
          drainQueued, drainRunning := false, false;
          return;
        }
        drainQueued, drainRunning := false, true;
        DrainWork(if passes < |calls| then calls[passes] else 0);
        passes := passes + 1;
        if !drainQueued {
          drainRunning := false;
          return;
        }
      }
    }

    method Close()
      modifies this`done
      ensures done
    {
      done := true;
    }
  }
}
