/** The reconciler's own loops: the registry kept per agent, the batched pass over the active
    agents and the sends to the registrations that are behind. */
module Reconciler {
  import opened LiveStreams

  datatype Frontier = Frontier(agent: int, sequence: int)

  /** Registration x of the agent is behind the frontier. */
  predicate Behind(registry: map<int, set<int>>, cursors: map<int, int>, f: Frontier, x: int) {
    f.agent in registry && x in registry[f.agent] && x in cursors && cursors[x] < f.sequence
  }

  /** Registration x is behind one of the first n frontiers. */
  ghost predicate BehindSome(registry: map<int, set<int>>, cursors: map<int, int>, fs: seq<Frontier>, n: int, x: int) {
    exists i :: 0 <= i < |fs| && i < n && Behind(registry, cursors, fs[i], x)
  }

  /** Every frontier row comes from `frontier`, one per agent asked about. */
  ghost predicate Answers(fs: seq<Frontier>, agents: seq<int>, frontier: int -> int) {
    && |fs| == |agents|
    && forall i :: 0 <= i < |fs| ==> fs[i] == Frontier(agents[i], frontier(agents[i]))
  }

  datatype Rows = RowsFailed | Rows(rows: seq<Frontier>)

  /** Withdrawing twice is withdrawing once, and undoes enrolling a new registration. */
  lemma WithdrawUndoesEnrol(registry: map<int, set<int>>, agent: int, x: int)
    requires agent in registry ==> registry[agent] != {} && x !in registry[agent]
    ensures Withdraw(Enrol(registry, agent, x), agent, x) == registry
    ensures Withdraw(registry, agent, x) == registry
  {
    var own := if agent in registry then registry[agent] else {};
    assert own + {x} - {x} == own;
    assert own - {x} == own;
    assert agent !in registry ==> registry[agent := own + {x}] - {agent} == registry;
  }

  /** n batches of that size are just enough for so many agents. */
  predicate Batches(agents: nat, batchSize: int, n: int) {
    agents <= batchSize * n < agents + batchSize
  }

  /** Where the scan stands after n batches. */
  function After(batchSize: nat, n: nat): nat {
    if n == 0 then 0 else After(batchSize, n - 1) + batchSize
  }

  lemma {:induction false} AfterIsProduct(batchSize: nat, n: nat)
    ensures After(batchSize, n) == batchSize * n
  {
    if n > 0 { AfterIsProduct(batchSize, n - 1); }
  }

  lemma {:induction false} DistinctCount(agents: seq<int>, keys: set<int>)
    requires forall a :: a in agents <==> a in keys
    requires forall i, j :: 0 <= i < j < |agents| ==> agents[i] != agents[j]
    ensures |agents| == |keys|
  {
    if |agents| == 0 {
      assert forall a :: a in keys ==> a in agents;
    } else {
      var n := |agents| - 1;
      assert agents == agents[..n] + [agents[n]];
      DistinctCount(agents[..n], keys - {agents[n]});
    }
  }

  method Pick<T>(s: set<T>) returns (x: T)
    requires s != {}
    ensures x in s
  {
    x :| x in s;
  }

  class EventReconciler {
    var streams: map<int, set<int>>
    var cursors: map<int, int>
    var slots: set<int>
    var started: bool
    var closed: bool
    /** How many frontier queries were made, and how many failed. */
    var queries: nat
    var failures: nat

    ghost predicate Valid()
      reads this
    {
      && (forall a :: a in streams ==> streams[a] != {})
      && (forall a, x :: a in streams && x in streams[a] ==> x in cursors)
    }

    constructor ()
      ensures Valid() && streams == map[] && cursors == map[] && slots == {} && !started && !closed
    {
      streams, cursors, slots, started, closed := map[], map[], {}, false, false;
      queries, failures := 0, 0;
    }

    method Register(agent: int, x: int, cursor: int) returns (ok: bool)
      requires Valid() && x !in cursors
      modifies this
      ensures Valid() && ok == !old(closed) && closed == old(closed) && slots == old(slots)
      ensures !ok ==> streams == old(streams) && cursors == old(cursors) && started == old(started)
      ensures ok ==> streams == Enrol(old(streams), agent, x) && cursors == old(cursors)[x := cursor] && started
    {
      if closed {
        return false;
      }
      var registrations := if agent in streams then streams[agent] else {};
      streams := streams[agent := registrations + {x}];
      cursors := cursors[x := cursor];
      started := true;
      return true;
    }

    method Unregister(agent: int, x: int)
      requires Valid()
      modifies this`streams
      ensures Valid() && streams == Withdraw(old(streams), agent, x)
    {
      if agent in streams {
        var registrations := streams[agent] - {x};
        if registrations == {} {
          streams := streams - {agent};
        } else {
          streams := streams[agent := registrations];
        }
      }
    }

    /** advance: the cursor never moves back. */
    method Advance(x: int, cursor: int)
      requires Valid() && x in cursors
      modifies this`cursors
      ensures Valid()
      ensures cursors == old(cursors)[x := if cursor <= old(cursors)[x] then old(cursors)[x] else cursor]
    {
      if cursor > cursors[x] {
        cursors := cursors[x := cursor];
      }
    }

    method ActiveAgentIDs() returns (agents: seq<int>)
      ensures forall a :: a in agents <==> a in streams
      ensures forall i, j :: 0 <= i < j < |agents| ==> agents[i] != agents[j]
    {
      agents := [];
      var rest := streams.Keys;
      while rest != {}
        invariant forall a :: a in streams <==> a in rest || a in agents
        invariant forall i :: 0 <= i < |agents| ==> agents[i] !in rest
        invariant forall i, j :: 0 <= i < j < |agents| ==> agents[i] != agents[j]
        decreases rest
      {
        var a := Pick(rest);
        agents := agents + [a];
        rest := rest - {a};
      }
    }

    /** The sends for one frontier row. */
    method SignalRow(f: Frontier)
      requires Valid()
      modifies this`slots
      ensures old(slots) <= slots
      ensures forall x :: x in slots <==> x in old(slots) || Behind(streams, cursors, f, x)
    {
      if f.agent in streams {
        var rest := streams[f.agent];
        while rest != {}
          invariant rest <= streams[f.agent] && old(slots) <= slots
          invariant forall x :: x in slots <==>
            x in old(slots) || (Behind(streams, cursors, f, x) && x !in rest)
          decreases rest
        {
          var x := Pick(rest);
          if f.sequence > cursors[x] {
            slots := slots + {x};
          }
          rest := rest - {x};
        }
      }
    }

    /** signalBehindStreams: afterwards a slot is full exactly if it was, or its stream is behind. */
    method SignalBehindStreams(fs: seq<Frontier>)
      requires Valid()
      modifies this`slots
      ensures old(slots) <= slots
      ensures forall x :: x in slots <==> x in old(slots) || BehindSome(streams, cursors, fs, |fs|, x)
    {
      for i := 0 to |fs|
        invariant old(slots) <= slots
        invariant forall x :: x in slots <==> x in old(slots) || BehindSome(streams, cursors, fs, i, x)
      {
        ghost var before := slots;
        SignalRow(fs[i]);
        forall x ensures x in slots <==> x in old(slots) || BehindSome(streams, cursors, fs, i + 1, x) {
          assert Behind(streams, cursors, fs[i], x) ==> BehindSome(streams, cursors, fs, i + 1, x);
        }
      }
    }

    /** One frontier query: all the rows, or an error. */
    method ListFrontiers(agents: seq<int>, frontier: int -> int) returns (r: Rows)
      modifies this`queries, this`failures
      ensures r.Rows? ==> Answers(r.rows, agents, frontier)
      ensures queries == old(queries) + 1 && failures == if r.RowsFailed? then old(failures) + 1 else old(failures)
    {
      queries := queries + 1;
      var fail := AnyFailure();
      if fail {
        failures := failures + 1;
        return RowsFailed;
      }
      r := Rows(seq(|agents|, i requires 0 <= i < |agents| => Frontier(agents[i], frontier(agents[i]))));
    }

    static method AnyFailure() returns (fail: bool) {
      fail := *;
    }

    /** Stream x is behind the frontier of one of the first n agents. */
    ghost predicate Lagging(agents: seq<int>, n: int, frontier: int -> int, x: int)
      reads this
    {
      exists i :: 0 <= i < |agents| && i < n && Behind(streams, cursors, Frontier(agents[i], frontier(agents[i])), x)
    }

    /** Stream x is behind the frontier of its agent. */
    ghost predicate LagsBehind(frontier: int -> int, x: int)
      reads this
    {
      exists a :: Behind(streams, cursors, Frontier(a, frontier(a)), x)
    }

    lemma LaggingMeans(agents: seq<int>, n: int, frontier: int -> int)
      requires forall a :: a in streams ==> a in agents
      ensures forall x :: Lagging(agents, n, frontier, x) ==> LagsBehind(frontier, x)
      ensures |agents| <= n ==> forall x :: LagsBehind(frontier, x) ==> Lagging(agents, n, frontier, x)
    {
      forall x | |agents| <= n && LagsBehind(frontier, x) ensures Lagging(agents, n, frontier, x) {
        var a :| Behind(streams, cursors, Frontier(a, frontier(a)), x);
        assert a in agents;
        var i :| 0 <= i < |agents| && agents[i] == a;
        assert Behind(streams, cursors, Frontier(agents[i], frontier(agents[i])), x);
      }
    }

    lemma BatchLags(agents: seq<int>, start: nat, end: nat, frontier: int -> int, fs: seq<Frontier>, x: int)
      requires start <= end <= |agents| && Answers(fs, agents[start..end], frontier)
      ensures Lagging(agents, end, frontier, x) <==>
        Lagging(agents, start, frontier, x) || BehindSome(streams, cursors, fs, |fs|, x)
    {
      if i :| 0 <= i < |agents| && i < end && Behind(streams, cursors, Frontier(agents[i], frontier(agents[i])), x) {
        assert i >= start ==> fs[i - start] == Frontier(agents[i], frontier(agents[i]));
      }
      if i :| 0 <= i < |fs| && Behind(streams, cursors, fs[i], x) {
        assert fs[i] == Frontier(agents[start + i], frontier(agents[start + i]));
      }
    }

    /** The frontiers of agents[start..end], and the sends for them. */
    method ReconcileBatch(agents: seq<int>, start: nat, end: nat, frontier: int -> int, ghost slots0: set<int>) returns (ok: bool)
      requires Valid() && start <= end <= |agents| && slots0 <= slots
      requires forall x :: x in slots <==> x in slots0 || Lagging(agents, start, frontier, x)
      modifies this`slots, this`queries, this`failures
      ensures slots0 <= slots && queries == old(queries) + 1
      ensures forall x :: x in slots <==> x in slots0 || Lagging(agents, if ok then end else start, frontier, x)
      ensures failures == if ok then old(failures) else old(failures) + 1
    {
      var r := ListFrontiers(agents[start..end], frontier);
      if r.RowsFailed? {
        return false;
      }
      SignalBehindStreams(r.rows);
      forall x ensures x in slots <==> x in slots0 || Lagging(agents, end, frontier, x) {
        BatchLags(agents, start, end, frontier, r.rows, x);
      }
      return true;
    }

    /** reconcile, run without interference: whatever the batch size, a completed pass fills
        exactly the slots of the streams behind their agent's frontier, with one query for every full
        batch of agents and one for the rest; it breaks off only at a failed query. */
    method Reconcile(batchSize: int, frontier: int -> int) returns (ok: bool)
      requires Valid() && 0 < batchSize
      modifies this`slots, this`queries, this`failures
      ensures old(slots) <= slots
      ensures forall x :: x in slots && x !in old(slots) ==> LagsBehind(frontier, x)
      ensures ok ==> forall x :: LagsBehind(frontier, x) ==> x in slots
      ensures ok <==> failures == old(failures)
      ensures ok ==> Batches(|streams|, batchSize, queries - old(queries))
    {
      var agents := ActiveAgentIDs();
      DistinctCount(agents, streams.Keys);
      ghost var asked;
      ok, asked := ReconcileAll(agents, batchSize, frontier, slots);
      LaggingMeans(agents, asked, frontier);
      if ok {
        AfterIsProduct(batchSize, queries - old(queries));
      }
    }

    /** The batches one after the other; the first `asked` agents were asked about. */
    method ReconcileAll(agents: seq<int>, batchSize: int, frontier: int -> int, ghost slots0: set<int>) returns (ok: bool, ghost asked: nat)
      requires Valid() && 0 < batchSize && slots0 == slots
      modifies this`slots, this`queries, this`failures
      ensures slots0 <= slots && asked <= |agents| && (ok ==> asked == |agents|)
      ensures forall x :: x in slots <==> x in slots0 || Lagging(agents, asked, frontier, x)
      ensures ok <==> failures == old(failures)
      ensures old(queries) <= queries
      ensures ok ==> |agents| <= After(batchSize, queries - old(queries)) < |agents| + batchSize
    {
      var start := 0;
      asked := 0;
      while start < |agents|
        invariant 0 <= start && slots0 <= slots && asked == if start < |agents| then start else |agents|
        invariant forall x :: x in slots <==> x in slots0 || Lagging(agents, asked, frontier, x)
        invariant failures == old(failures) && old(queries) <= queries
        invariant start == After(batchSize, queries - old(queries)) && start < |agents| + batchSize
        decreases |agents| - start
      {
        var end := if start + batchSize < |agents| then start + batchSize else |agents|;
        ok := ReconcileBatch(agents, start, end, frontier, slots0);
        if !ok {
          return;
        }
        asked := end;
        start := start + batchSize;
      }
      return true, asked;
    }

    method Close()
      modifies this`closed
      ensures closed
    {
      closed := true;
    }
  }
}
