/** The daemon socket hub: one socket per machine and per runtime, while sockets replace one
    another and close late. */
module Hub {
  /** A socket is known by its connection; its machine and runtime never change. */
  datatype Socket = Socket(connection: int, machine: int, runtime: int)

  /** `live` are the sockets that were registered and have not been unregistered, `doomed` those a
      registration has replaced and will close after letting go of the lock. */
  datatype State = State(
    byMachine: map<int, Socket>, byRuntime: map<int, Socket>,
    live: set<Socket>, doomed: set<Socket>, closed: set<Socket>)

  const EMPTY_HUB := State(map[], map[], {}, {}, {})

  datatype Action = Register(x: Socket) | CloseReplaced(x: Socket) | CloseSocket(x: Socket) | Unregister(x: Socket)

  predicate Enabled(s: State, a: Action) {
    match a
    case Register(_) => true
    case CloseReplaced(x) => x in s.doomed
    case CloseSocket(_) => true
    case Unregister(x) => x in s.live
  }

  function Without<K(==), V(==)>(m: map<K, V>, k: K, v: V): map<K, V> {
    if k in m && m[k] == v then m - {k} else m
  }

  /** The other sockets that hold x's machine or x's runtime. */
  function Replaced(byMachine: map<int, Socket>, byRuntime: map<int, Socket>, x: Socket): set<Socket> {
    (if x.machine in byMachine then {byMachine[x.machine]} else {}) +
    (if x.runtime in byRuntime then {byRuntime[x.runtime]} else {}) - {x}
  }

  /** p is the entry of x's machine or of x's runtime. */
  predicate HoldsKeyOf(byMachine: map<int, Socket>, byRuntime: map<int, Socket>, x: Socket, p: Socket) {
    (x.machine in byMachine && byMachine[x.machine] == p) || (x.runtime in byRuntime && byRuntime[x.runtime] == p)
  }

  function Apply(s: State, a: Action): State {
    match a
    case Register(x) =>
      s.(byMachine := s.byMachine[x.machine := x], byRuntime := s.byRuntime[x.runtime := x],
         live := s.live + {x}, doomed := s.doomed + Replaced(s.byMachine, s.byRuntime, x))
    case CloseReplaced(x) => s.(doomed := s.doomed - {x}, closed := s.closed + {x})
    case CloseSocket(x) => s.(closed := s.closed + {x})
    case Unregister(x) =>
      s.(byMachine := Without(s.byMachine, x.machine, x), byRuntime := Without(s.byRuntime, x.runtime, x),
         live := s.live - {x})
  }

  // ----- invariant -----

  predicate Holds(s: State, x: Socket) {
    && x.machine in s.byMachine && s.byMachine[x.machine] == x
    && x.runtime in s.byRuntime && s.byRuntime[x.runtime] == x
  }

  predicate Open(s: State, x: Socket) {
    x in s.live && x !in s.closed && x !in s.doomed
  }

  ghost predicate Keyed(s: State) {
    && (forall m :: m in s.byMachine ==> s.byMachine[m].machine == m && s.byMachine[m] in s.live)
    && (forall r :: r in s.byRuntime ==> s.byRuntime[r].runtime == r && s.byRuntime[r] in s.live)
  }

  /** A live socket missing from a map is closed or about to be. */
  ghost predicate Inv(s: State) {
    Keyed(s) && forall x :: x in s.live && !Holds(s, x) ==> x in s.closed || x in s.doomed
  }

  lemma StepKeeps(s: State, a: Action)
    requires Inv(s) && Enabled(s, a)
    ensures Inv(Apply(s, a))
  {
    var s' := Apply(s, a);
    forall x | x in s'.live && !Holds(s', x) ensures x in s'.closed || x in s'.doomed {
      if a.Register? && x != a.x && Holds(s, x) {
        assert x in Replaced(s.byMachine, s.byRuntime, a.x);
      } else {
        assert x in s.live;
      }
    }
  }

  /** Unregistering a socket never touches the entries of another. */
  lemma UnregisterSparesOthers(s: State, x: Socket, y: Socket)
    requires Keyed(s) && x != y
    ensures Holds(s, y) <==> Holds(Apply(s, Unregister(x)), y)
    ensures forall m :: m in s.byMachine && s.byMachine[m] == y ==>
      m in Apply(s, Unregister(x)).byMachine && Apply(s, Unregister(x)).byMachine[m] == y
    ensures forall r :: r in s.byRuntime && s.byRuntime[r] == y ==>
      r in Apply(s, Unregister(x)).byRuntime && Apply(s, Unregister(x)).byRuntime[r] == y
  {
  }

  ghost predicate Takes(s: State, a: Action, s': State) {
    Enabled(s, a) && s' == Apply(s, a)
  }

  ghost predicate IsRun(states: seq<State>, actions: seq<Action>) {
    && |states| == |actions| + 1 && states[0] == EMPTY_HUB
    && forall i :: 0 <= i < |actions| ==> Takes(states[i], actions[i], states[i + 1])
  }

  lemma {:induction false} EveryStateIsSound(states: seq<State>, actions: seq<Action>, n: nat)
    requires IsRun(states, actions) && n < |states|
    ensures Inv(states[n])
  {
    if n > 0 {
      EveryStateIsSound(states, actions, n - 1);
      assert Takes(states[n - 1], actions[n - 1], states[n]);
      StepKeeps(states[n - 1], actions[n - 1]);
    }
  }

  /** In every reachable state each machine and each runtime has at most one open socket. */
  lemma OneOpenSocket(states: seq<State>, actions: seq<Action>, n: nat, x: Socket, y: Socket)
    requires IsRun(states, actions) && n < |states| && Open(states[n], x) && Open(states[n], y)
    requires x.machine == y.machine || x.runtime == y.runtime
    ensures x == y && Holds(states[n], x)
  {
    EveryStateIsSound(states, actions, n);
  }

  // ----- who holds a machine, told by the history alone -----

  /** Step i registered x, and since then no socket was registered for that key nor x unregistered. */
  ghost predicate LatestFor(actions: seq<Action>, i: nat, n: nat, x: Socket, same: Socket -> bool) {
    && i < n <= |actions| && actions[i] == Register(x)
    && forall j :: i < j < n ==> actions[j] != Unregister(x) && !(actions[j].Register? && same(actions[j].x))
  }

  ghost predicate Latest(actions: seq<Action>, n: nat, x: Socket, same: Socket -> bool) {
    exists i :: LatestFor(actions, i, n, x, same)
  }

  function OfMachine(m: int): Socket -> bool {
    (x: Socket) => x.machine == m
  }

  function OfRuntime(r: int): Socket -> bool {
    (x: Socket) => x.runtime == r
  }

  lemma LatestStep(actions: seq<Action>, n: nat, x: Socket, same: Socket -> bool)
    requires n < |actions|
    ensures Latest(actions, n + 1, x, same) <==>
      if actions[n] == Register(x) then true
      else Latest(actions, n, x, same) && actions[n] != Unregister(x) && !(actions[n].Register? && same(actions[n].x))
  {
    var next := n + 1;
    if actions[n] == Register(x) {
      assert LatestFor(actions, n, next, x, same);
    } else if i :| LatestFor(actions, i, next, x, same) {
      assert LatestFor(actions, i, n, x, same);
    } else if i :| LatestFor(actions, i, n, x, same) {
      if actions[n] != Unregister(x) && !(actions[n].Register? && same(actions[n].x)) {
        assert LatestFor(actions, i, n + 1, x, same);
      }
    }
  }

  /** A machine's entry is the socket registered last for it, unless that one has been unregistered. */
  lemma {:induction false} MachineHeldByLatest(states: seq<State>, actions: seq<Action>, n: nat, x: Socket)
    requires IsRun(states, actions) && n < |states|
    ensures x.machine in states[n].byMachine && states[n].byMachine[x.machine] == x <==>
      Latest(actions, n, x, OfMachine(x.machine))
  {
    if n > 0 {
      MachineHeldByLatest(states, actions, n - 1, x);
      LatestStep(actions, n - 1, x, OfMachine(x.machine));
      assert Takes(states[n - 1], actions[n - 1], states[n]);
      EveryStateIsSound(states, actions, n - 1);
    }
  }

  /** The same for a runtime. */
  lemma {:induction false} RuntimeHeldByLatest(states: seq<State>, actions: seq<Action>, n: nat, x: Socket)
    requires IsRun(states, actions) && n < |states|
    ensures x.runtime in states[n].byRuntime && states[n].byRuntime[x.runtime] == x <==>
      Latest(actions, n, x, OfRuntime(x.runtime))
  {
    if n > 0 {
      RuntimeHeldByLatest(states, actions, n - 1, x);
      LatestStep(actions, n - 1, x, OfRuntime(x.runtime));
      assert Takes(states[n - 1], actions[n - 1], states[n]);
      EveryStateIsSound(states, actions, n - 1);
    }
  }

  // ----- who is closed, told by the history alone -----

  /** Step i registers another socket while x is the latest for its machine or for its runtime. */
  ghost predicate Replaces(actions: seq<Action>, i: nat, x: Socket) {
    && i < |actions| && actions[i].Register? && actions[i].x != x
    && ((actions[i].x.machine == x.machine && Latest(actions, i, x, OfMachine(x.machine))) ||
        (actions[i].x.runtime == x.runtime && Latest(actions, i, x, OfRuntime(x.runtime))))
  }

  /** x was replaced at step i and not closed for it since. */
  ghost predicate DoomedSince(actions: seq<Action>, i: nat, n: nat, x: Socket) {
    i < n <= |actions| && Replaces(actions, i, x) && forall j :: i < j < n ==> actions[j] != CloseReplaced(x)
  }

  ghost predicate DoomedBy(actions: seq<Action>, n: nat, x: Socket) {
    exists i :: DoomedSince(actions, i, n, x)
  }

  lemma DoomedStep(actions: seq<Action>, n: nat, x: Socket)
    requires n < |actions|
    ensures DoomedBy(actions, n + 1, x) <==>
      Replaces(actions, n, x) || (DoomedBy(actions, n, x) && actions[n] != CloseReplaced(x))
  {
    var next := n + 1;
    if Replaces(actions, n, x) {
      assert DoomedSince(actions, n, next, x);
    } else if i :| DoomedSince(actions, i, next, x) {
      assert DoomedSince(actions, i, n, x);
    } else if i :| DoomedSince(actions, i, n, x) {
      if actions[n] != CloseReplaced(x) {
        assert DoomedSince(actions, i, next, x);
      }
    }
  }

  /** Registering a socket replaces exactly the others that are the latest for one of its keys. */
  lemma RegisterReplaces(states: seq<State>, actions: seq<Action>, n: nat, x: Socket)
    requires IsRun(states, actions) && n < |actions| && actions[n].Register?
    ensures x in Replaced(states[n].byMachine, states[n].byRuntime, actions[n].x) <==> Replaces(actions, n, x)
  {
    MachineHeldByLatest(states, actions, n, x);
    RuntimeHeldByLatest(states, actions, n, x);
    EveryStateIsSound(states, actions, n);
  }

  /** A socket is about to be closed by the hub exactly when some registration replaced it: another
      socket took its machine or its runtime while it was the latest for that key. */
  lemma {:induction false} DoomedIffReplaced(states: seq<State>, actions: seq<Action>, n: nat, x: Socket)
    requires IsRun(states, actions) && n < |states|
    ensures x in states[n].doomed <==> DoomedBy(actions, n, x)
  {
    if n > 0 {
      DoomedIffReplaced(states, actions, n - 1, x);
      DoomedStep(actions, n - 1, x);
      assert Takes(states[n - 1], actions[n - 1], states[n]);
      if actions[n - 1].Register? { RegisterReplaces(states, actions, n - 1, x); }
    }
  }

  ghost predicate ClosedBy(actions: seq<Action>, n: nat, x: Socket) {
    exists i :: 0 <= i < n && i < |actions| && (actions[i] == CloseReplaced(x) || actions[i] == CloseSocket(x))
  }

  /** The hub closes a socket only after replacing it; whatever else closes it did so itself. */
  lemma {:induction false} ClosedMeans(states: seq<State>, actions: seq<Action>, n: nat, x: Socket)
    requires IsRun(states, actions) && n < |states|
    ensures x in states[n].closed <==> ClosedBy(actions, n, x)
    ensures n < |actions| && actions[n] == CloseReplaced(x) ==> DoomedBy(actions, n, x)
  {
    DoomedIffReplaced(states, actions, n, x);
    if n < |actions| { assert Takes(states[n], actions[n], states[n + 1]); }
    if n > 0 {
      ClosedMeans(states, actions, n - 1, x);
      assert Takes(states[n - 1], actions[n - 1], states[n]);
      assert ClosedBy(actions, n, x) <==>
        ClosedBy(actions, n - 1, x) || actions[n - 1] == CloseReplaced(x) || actions[n - 1] == CloseSocket(x);
    }
  }

  /** Step i registered x, and it has not been unregistered since. */
  ghost predicate RegisteredSince(actions: seq<Action>, i: nat, n: nat, x: Socket) {
    i < n <= |actions| && actions[i] == Register(x) && forall j :: i < j < n ==> actions[j] != Unregister(x)
  }

  ghost predicate StillRegistered(actions: seq<Action>, n: nat, x: Socket) {
    exists i :: RegisteredSince(actions, i, n, x)
  }

  lemma {:induction false} LiveIffRegistered(states: seq<State>, actions: seq<Action>, n: nat, x: Socket)
    requires IsRun(states, actions) && n < |states|
    ensures x in states[n].live <==> StillRegistered(actions, n, x)
  {
    if n > 0 {
      var m := n - 1;
      LiveIffRegistered(states, actions, m, x);
      assert Takes(states[m], actions[m], states[n]);
      if actions[m] == Register(x) {
        assert RegisteredSince(actions, m, n, x);
      } else if i :| RegisteredSince(actions, i, n, x) {
        assert RegisteredSince(actions, i, m, x);
      } else if i :| RegisteredSince(actions, i, m, x) {
        assert actions[m] != Unregister(x) ==> RegisteredSince(actions, i, n, x);
      }
    }
  }

  /** A socket is open exactly when it was registered and not unregistered since, nobody closed it, and no
      registration replaced it. */
  lemma OpenMeans(states: seq<State>, actions: seq<Action>, n: nat, x: Socket)
    requires IsRun(states, actions) && n < |states|
    ensures Open(states[n], x) <==> StillRegistered(actions, n, x) && !ClosedBy(actions, n, x) && !DoomedBy(actions, n, x)
  {
    LiveIffRegistered(states, actions, n, x);
    ClosedMeans(states, actions, n, x);
    DoomedIffReplaced(states, actions, n, x);
  }

  /** A registration for another machine and another runtime leaves an open socket open and in place. */
  lemma OthersStayOpen(states: seq<State>, actions: seq<Action>, n: nat, x: Socket)
    requires IsRun(states, actions) && n < |actions| && Open(states[n], x)
    requires actions[n].Register? && actions[n].x.machine != x.machine && actions[n].x.runtime != x.runtime
    ensures Open(states[n + 1], x) && Holds(states[n + 1], x)
  {
    EveryStateIsSound(states, actions, n);
    assert Takes(states[n], actions[n], states[n + 1]);
  }

  // ----- the hub's methods -----

  class DaemonSocketHub {
    var byMachine: map<int, Socket>
    var byRuntime: map<int, Socket>
    var closed: set<Socket>

    constructor ()
      ensures byMachine == map[] && byRuntime == map[] && closed == {}
    {
      byMachine, byRuntime, closed := map[], map[], {};
    }

    /** The part of register under the lock: the sockets to close, each once. */
    method Replace(x: Socket) returns (replaced: seq<Socket>)
      modifies this`byMachine, this`byRuntime
      ensures byMachine == old(byMachine)[x.machine := x] && byRuntime == old(byRuntime)[x.runtime := x]
      ensures forall p :: p in replaced <==> p != x && HoldsKeyOf(old(byMachine), old(byRuntime), x, p)
      ensures forall i, j :: 0 <= i < j < |replaced| ==> replaced[i] != replaced[j]
    {
      replaced := [];
      if x.machine in byMachine && byMachine[x.machine] != x {
        replaced := replaced + [byMachine[x.machine]];
      }
      if x.runtime in byRuntime && byRuntime[x.runtime] != x {
        var prior := byRuntime[x.runtime];
        var duplicate := false;
        for i := 0 to |replaced|
          invariant duplicate <==> prior in replaced[..i]
        {
          if replaced[i] == prior {
            duplicate := true;
            break;
          }
        }
        if !duplicate {
          replaced := replaced + [prior];
        }
      }
      byMachine := byMachine[x.machine := x];
      byRuntime := byRuntime[x.runtime := x];
    }

    method Register(x: Socket)
      modifies this
      ensures byMachine == old(byMachine)[x.machine := x] && byRuntime == old(byRuntime)[x.runtime := x]
      ensures forall p :: p in closed <==> p in old(closed) || (p != x && HoldsKeyOf(old(byMachine), old(byRuntime), x, p))
      ensures closed == old(closed) + Replaced(old(byMachine), old(byRuntime), x)
    {
      var replaced := Replace(x);
      for i := 0 to |replaced|
        invariant byMachine == old(byMachine)[x.machine := x] && byRuntime == old(byRuntime)[x.runtime := x]
        invariant forall p :: p in closed <==> p in old(closed) || p in replaced[..i]
      {
        closed := closed + {replaced[i]};
      }
      assert replaced[..|replaced|] == replaced;
    }

    method Unregister(x: Socket)
      modifies this`byMachine, this`byRuntime
      ensures byMachine == Without(old(byMachine), x.machine, x) && byRuntime == Without(old(byRuntime), x.runtime, x)
    {
      if x.machine in byMachine && byMachine[x.machine] == x {
        byMachine := byMachine - {x.machine};
      }
      if x.runtime in byRuntime && byRuntime[x.runtime] == x {
        byRuntime := byRuntime - {x.runtime};
      }
    }
  }
}
