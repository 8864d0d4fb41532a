/**
 When can a push lose a packet?  With one plugin thread never; with two or more
 there is a run in which it does.
 */
module PoolLoss {
  import opened PacketTypes
  import opened PacketPool
  import opened PoolRuns
  import opened PoolList

  // -------------------------------------------------- one plugin thread

  // A lone thread about to publish still sees the head it linked to.
  predicate Alone(s: State) {
    |s.threads| == 1 && s.threads[0].pc.Publish? ==>
      s.threads[0].pc.id < |s.pool.packets| && s.pool.packets[s.threads[0].pc.id].next == s.pool.head
  }

  lemma StepAlone(s: State, a: Action)
    requires Shape(s) && Alone(s)
    ensures Alone(Step(s, a))
  {
    if a.OfPlugin? && a.t < |s.threads| { assert ThreadOk(s.pool, s.threads[a.t]); }
  }

  lemma {:induction false} RunAlone(n: nat, actions: seq<Action>)
    ensures Alone(Run(n, actions))
  {
    if actions != [] {
      RunAlone(n, actions[..|actions| - 1]);
      StepAlone(Run(n, actions[..|actions| - 1]), actions[|actions| - 1]);
    }
  }

  lemma SoloNeverLoses(n: nat, actions: seq<Action>)
    requires n <= 1
    ensures NeverLost(n, actions)
  {
    forall i | 0 <= i < |actions| ensures !Overtaken(Run(n, actions[..i]), actions[i]) {
      RunAlone(n, actions[..i]);
    }
    LostIffOvertaken(n, actions);
  }

  // Every READY packet lies on the list that storage's next pass follows.
  ghost predicate ReadyReachable(q: Pool)
    requires Chained(q)
  {
    forall k :: 0 <= k < |q.packets| && q.packets[k].state.Ready? ==> k in Chain(q, q.head)
  }

  lemma SoloReadyIsReachable(n: nat, actions: seq<Action>)
    requires n <= 1
    ensures ReadyReachable(Run(n, actions).pool)
  {
    var q := Run(n, actions).pool;
    SoloNeverLoses(n, actions);
    assert actions[..|actions|] == actions;
    forall k | 0 <= k < |q.packets| && q.packets[k].state.Ready? ensures k in Chain(q, q.head) {
      assert PacketOk(q, q.packets[k]);
    }
  }

  // -------------------------------------------------- two plugin threads

  // The pool and the first two threads of a run; the other threads stay where they are.
  datatype Duo = Duo(pool: Pool, first: Thread, second: Thread)

  predicate CanMove(d: Duo, t: nat) {
    t <= 1 && var th := if t == 0 then d.first else d.second;
              ThreadOk(d.pool, th) && !th.pc.PostLock? && !th.pc.PostHold?
  }

  function Move(d: Duo, t: nat, c: Choice): Duo {
    if !CanMove(d, t) then d else
      var e := LocalStep(d.pool, if t == 0 then d.first else d.second, t, c);
      if t == 0 then Duo(e.pool, e.th, d.second) else Duo(e.pool, d.first, e.th)
  }

  // Instructions of threads 0 and 1, in order.
  datatype Script = End | Then(t: nat, c: Choice, rest: Script)

  function Play(d: Duo, script: Script): Duo
    decreases script
  {
    match script
    case End => d
    case Then(t, c, rest) => Play(Move(d, t, c), rest)
  }

  // The part of a state that the script is about.
  function View(s: State): Duo
    requires |s.threads| >= 2
  {
    Duo(s.pool, s.threads[0], s.threads[1])
  }

  lemma StepView(s: State, t: nat, c: Choice)
    requires Shape(s) && |s.threads| >= 2 && CanMove(View(s), t)
    ensures |Step(s, OfPlugin(t, c)).threads| == |s.threads| && View(Step(s, OfPlugin(t, c))) == Move(View(s), t, c)
  {
  }

  lemma PlayOne(n: nat, actions: seq<Action>, t: nat, c: Choice) returns (actions': seq<Action>)
    requires n >= 2
    ensures View(Run(n, actions')) == Move(View(Run(n, actions)), t, c)
  {
    var s := Run(n, actions);
    if CanMove(View(s), t) {
      actions' := actions + [OfPlugin(t, c)];
      assert actions'[..|actions|] == actions;
      StepView(s, t, c);
    } else {
      actions' := actions;
    }
  }

  lemma {:induction false} PlayAll(n: nat, actions: seq<Action>, script: Script) returns (actions': seq<Action>)
    requires n >= 2
    ensures View(Run(n, actions')) == Play(View(Run(n, actions)), script)
    decreases script
  {
    match script
    case End => actions' := actions;
    case Then(t, c, rest) =>
      actions' := PlayOne(n, actions, t, c);
      actions' := PlayAll(n, actions', rest);
  }

  const GO := Flag(false)

  const START := Duo(Pool([], Null, 0), Thread(Outside, Null, 0), Thread(Outside, Null, 0))

  const OPENED := Duo(Pool([Packet(Metric, Begin, false, Null, 1, [])], At(0), 1),
                      Thread(Outside, Null, 0), Thread(Gather(0), At(0), 0))

  // Thread 1 allocates packet 0 and opens it.
  lemma Opens() returns (script: Script)
    ensures Play(START, script) == OPENED
  {
    script := Then(1, EnterGather, Then(1, GO, Then(1, GO, Then(1, GO, Then(1, GO, End)))));
    var d1 := Move(START, 1, EnterGather);
    var d2 := Move(d1, 1, GO);
    var d3 := Move(d2, 1, GO);
    var d4 := Move(d3, 1, GO);
    var d5 := Move(d4, 1, GO);
    assert d5 == OPENED;
  }

  const LOCKED := Duo(Pool([Packet(Metric, Begin, true, Null, 1, []), Packet(Metric, Empty, false, Null, 0, [])], At(0), 1),
                      Thread(Link(1, 0), Null, 0), Thread(Gather(0), At(0), 0))

  // Thread 0 finds nothing to recycle, allocates packet 1 and takes the spin of the head, packet 0.
  lemma Locks() returns (script: Script)
    ensures Play(OPENED, script) == LOCKED
  {
    script := Then(0, EnterGather, Then(0, GO, Then(0, GO, Then(0, GO, Then(0, GO, Then(0, GO, Then(0, GO, End)))))));
    var d1 := Move(OPENED, 0, EnterGather);
    var d2 := Move(d1, 0, GO);
    var d3 := Move(d2, 0, GO);
    var d4 := Move(d3, 0, GO);
    var d5 := Move(d4, 0, GO);
    var d6 := Move(d5, 0, GO);
    var d7 := Move(d6, 0, GO);
    assert d7 == LOCKED;
  }

  const RECYCLED := Duo(Pool([Packet(Metric, Empty, false, Null, 1, []), Packet(Metric, Empty, false, Null, 0, [])], At(0), 1),
                        Thread(Link(1, 0), Null, 0), Thread(Gather(0), At(0), 0))

  // Thread 1 drops packet 0 and claims it again, which clears the spin thread 0 holds.
  lemma Recycles() returns (script: Script)
    ensures Play(LOCKED, script) == RECYCLED
  {
    script := Then(1, GO, Then(1, Flag(true), Then(1, GO, Then(1, EnterGather, Then(1, GO, Then(1, GO, End))))));
    var d1 := Move(LOCKED, 1, GO);
    var d2 := Move(d1, 1, Flag(true));
    var d3 := Move(d2, 1, GO);
    var d4 := Move(d3, 1, EnterGather);
    var d5 := Move(d4, 1, GO);
    var d6 := Move(d5, 1, GO);
    assert d6 == RECYCLED;
  }

  const FILLED := Duo(Pool([Packet(Metric, Ready, false, Null, 1, [Record(1, 0)]), Packet(Metric, Empty, false, Null, 0, [])], At(0), 1),
                      Thread(Link(1, 0), Null, 0), Thread(Outside, Null, 1))

  // Thread 1 commits a record and hands packet 0 over to storage.
  lemma Fills() returns (script: Script)
    ensures Play(RECYCLED, script) == FILLED
  {
    script := Then(1, GO, Then(1, Flag(true), Then(1, Flag(true), Then(1, GO, End))));
    var d1 := Move(RECYCLED, 1, GO);
    var d2 := Move(d1, 1, Flag(true));
    var d3 := Move(d2, 1, Flag(true));
    var d4 := Move(d3, 1, GO);
    assert [] + [Record(1, 0)] == [Record(1, 0)];
    assert d4 == FILLED;
  }

  const OVERLAP := Duo(Pool([Packet(Metric, Ready, true, Null, 1, [Record(1, 0)]), Packet(Metric, Empty, false, Null, 0, []),
                             Packet(Metric, Empty, false, At(0), 0, [])], At(0), 1),
                       Thread(Link(1, 0), Null, 0), Thread(Publish(2, 0), Null, 1))

  // Thread 1 needs another packet and takes the same spin while thread 0 is still inside.
  lemma Overlaps() returns (script: Script)
    ensures Play(FILLED, script) == OVERLAP
  {
    script := Then(1, EnterGather, Then(1, GO, Then(1, GO, Then(1, GO, Then(1, GO, Then(1, GO, Then(1, GO, Then(1, GO, End))))))));
    var d1 := Move(FILLED, 1, EnterGather);
    var d2 := Move(d1, 1, GO);
    var d3 := Move(d2, 1, GO);
    var d4 := Move(d3, 1, GO);
    var d5 := Move(d4, 1, GO);
    var d6 := Move(d5, 1, GO);
    var d7 := Move(d6, 1, GO);
    var d8 := Move(d7, 1, GO);
    assert d8 == OVERLAP;
  }

  const LOSING := Duo(Pool([Packet(Metric, Ready, true, Null, 1, [Record(1, 0)]), Packet(Metric, Empty, false, At(0), 2, []),
                            Packet(Metric, Empty, false, At(0), 0, [])], At(1), 2),
                      Thread(Unlock(1, 0), Null, 0), Thread(Publish(2, 0), Null, 1))

  // Thread 0 publishes packet 1; thread 1 has already linked packet 2 to packet 0.
  lemma Overtakes() returns (script: Script)
    ensures Play(OVERLAP, script) == LOSING
  {
    script := Then(0, GO, Then(0, GO, End));
    var d1 := Move(OVERLAP, 0, GO);
    var d2 := Move(d1, 0, GO);
    assert d2 == LOSING;
  }

  lemma LosingIsReached(n: nat) returns (actions: seq<Action>)
    requires n >= 2
    ensures View(Run(n, actions)) == LOSING
  {
    assert View(Run(n, [])) == START;
    var script := Opens();
    actions := PlayAll(n, [], script);
    script := Locks();
    actions := PlayAll(n, actions, script);
    script := Recycles();
    actions := PlayAll(n, actions, script);
    script := Fills();
    actions := PlayAll(n, actions, script);
    script := Overlaps();
    actions := PlayAll(n, actions, script);
    script := Overtakes();
    actions := PlayAll(n, actions, script);
  }

  // With several plugin threads some run loses a published packet.
  lemma SeveralCanLose(n: nat) returns (actions: seq<Action>)
    requires n >= 2
    ensures !NeverLost(n, actions)
  {
    var before := LosingIsReached(n);
    actions := before + [OfPlugin(1, GO)];
    assert actions[..|before|] == before;
    assert Overtaken(Run(n, before), OfPlugin(1, GO));
    LostIffOvertaken(n, actions);
  }

  /** The pool never loses a packet, whatever the interleaving, iff at most one plugin is configured. */
  lemma LosslessIffOnePlugin(n: nat)
    ensures (forall actions :: NeverLost(n, actions)) <==> n <= 1
  {
    if n <= 1 {
      forall actions ensures NeverLost(n, actions) { SoloNeverLoses(n, actions); }
    } else {
      var actions := SeveralCanLose(n);
    }
  }

  // ------------------------------------------------ a lost packet full of records

  const LOST := Duo(Pool([Packet(Metric, Ready, false, Null, 1, [Record(1, 0)]), Packet(Metric, Ready, false, At(0), 2, [Record(0, 0)]),
                          Packet(Metric, Empty, false, At(0), 3, [])], At(2), 3),
                    Thread(Forget(1), At(1), 1), Thread(Unlock(2, 0), Null, 1))

  // Thread 1 publishes packet 2 over packet 1; thread 0 fills packet 1 and hands it over.
  lemma FillsLost() returns (script: Script)
    ensures Play(LOSING, script) == LOST
  {
    script := Then(1, GO, Then(0, GO, Then(0, GO, Then(0, Flag(true), Then(0, Flag(true), End)))));
    var d1 := Move(LOSING, 1, GO);
    var d2 := Move(d1, 0, GO);
    var d3 := Move(d2, 0, GO);
    var d4 := Move(d3, 0, Flag(true));
    assert [] + [Record(0, 0)] == [Record(0, 0)];
    var d5 := Move(d4, 0, Flag(true));
    assert d5 == LOST;
  }

  lemma LostList(q: Pool)
    requires Chained(q) && q == LOST.pool
    ensures Chain(q, q.head) == [2, 0] && !ReadyReachable(q)
  {
    assert Chain(q, At(0)) == [0] + Chain(q, Null);
    assert Chain(q, At(2)) == [2] + Chain(q, At(0));
    assert q.packets[1].state.Ready? && 1 !in [2, 0];
  }

  // With several plugin threads some run leaves committed records in a READY packet storage cannot reach.
  lemma SeveralCanStrand(n: nat) returns (actions: seq<Action>)
    requires n >= 2
    ensures !ReadyReachable(Run(n, actions).pool)
  {
    actions := LosingIsReached(n);
    var script := FillsLost();
    actions := PlayAll(n, actions, script);
    LostList(Run(n, actions).pool);
  }

  /** Storage can reach every READY packet in every interleaving iff at most one plugin is configured. */
  lemma ReadyReachableIffOnePlugin(n: nat)
    ensures (forall actions :: ReadyReachable(Run(n, actions).pool)) <==> n <= 1
  {
    if n <= 1 {
      forall actions ensures ReadyReachable(Run(n, actions).pool) { SoloReadyIsReachable(n, actions); }
    } else {
      var actions := SeveralCanStrand(n);
    }
  }

  // ---------------------------------------------- a stale working pointer

  const SHARED := Duo(Pool([Packet(Metric, Empty, false, Null, 1, [])], At(0), 1),
                      Thread(Gather(0), At(0), 0), Thread(Forget(0), At(0), 0))

  // Thread 1 drops packet 0 and has not yet cleared its pointer when thread 0 claims the packet.
  lemma ClaimsDropped() returns (script: Script)
    ensures Play(OPENED, script) == SHARED
  {
    script := Then(1, GO, Then(1, Flag(true), Then(0, EnterGather, Then(0, GO, Then(0, GO, End)))));
    var d1 := Move(OPENED, 1, GO);
    var d2 := Move(d1, 1, Flag(true));
    var d3 := Move(d2, 0, EnterGather);
    var d4 := Move(d3, 0, GO);
    var d5 := Move(d4, 0, GO);
    assert d5 == SHARED;
  }

  /** With two plugins, two `working` pointers can name the same packet for a moment. */
  lemma WorkingCanBeShared(n: nat) returns (actions: seq<Action>)
    requires n >= 2
    ensures var s := Run(n, actions); s.threads[0].working == s.threads[1].working == At(0)
  {
    assert View(Run(n, [])) == START;
    var script := Opens();
    actions := PlayAll(n, [], script);
    script := ClaimsDropped();
    actions := PlayAll(n, actions, script);
  }
}
