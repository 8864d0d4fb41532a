/**
 How large the pool grows: exactly when it is never larger than it has to be, and
 why it never is when get_packet is not interrupted.
 */
module PoolGrowth {
  import opened PacketTypes
  import opened PacketPool
  import opened PoolRuns
  import opened PoolList
  import opened PoolLoss

  // ------------------------------------------------------------- the measure

  // How many packets are not DONE.
  function Live(packets: seq<Packet>): nat {
    if packets == [] then 0
    else Live(packets[..|packets| - 1]) + (if packets[|packets| - 1].state.Done? then 0 else 1)
  }

  lemma {:induction false} LiveBound(packets: seq<Packet>)
    ensures Live(packets) <= |packets|
    ensures Live(packets) == |packets| <==> forall k :: 0 <= k < |packets| ==> !packets[k].state.Done?
  {
    if packets != [] {
      var front := packets[..|packets| - 1];
      LiveBound(front);
      assert forall k :: 0 <= k < |front| ==> front[k] == packets[k];
    }
  }

  /** The largest number of packets that were not DONE at the same time during a run. */
  function Peak(n: nat, actions: seq<Action>): nat {
    var now := Live(Run(n, actions).pool.packets);
    if actions == [] then now
    else
      var before := Peak(n, actions[..|actions| - 1]);
      if before < now then now else before
  }

  // The instruction allocates a packet: the scan has reached the end of the list.
  predicate Allocates(s: State, a: Action) {
    a.OfPlugin? && a.t < |s.threads| && s.threads[a.t].pc == Scan(Null)
  }

  // It does so although some packet is DONE.
  ghost predicate Wasteful(s: State, a: Action) {
    Allocates(s, a) && exists k :: 0 <= k < |s.pool.packets| && s.pool.packets[k].state.Done?
  }

  // ---------------------------------------------------- the exact condition

  lemma StepSize(s: State, a: Action)
    requires Shape(s)
    ensures var ps, ps' := s.pool.packets, Step(s, a).pool.packets;
            if Allocates(s, a) then |ps'| == |ps| + 1 && ps'[..|ps|] == ps && !ps'[|ps|].state.Done? else |ps'| == |ps|
  {
    if a.OfPlugin? && a.t < |s.threads| { assert ThreadOk(s.pool, s.threads[a.t]); }
  }

  // One instruction keeps the pool as small as its peak iff it does not waste.
  lemma StepOptimal(s: State, a: Action, peak: nat)
    requires Shape(s) && |s.pool.packets| == peak
    ensures var ps' := Step(s, a).pool.packets; var peak' := if peak < Live(ps') then Live(ps') else peak;
            |ps'| == peak' <==> !Wasteful(s, a)
  {
    var ps, ps' := s.pool.packets, Step(s, a).pool.packets;
    StepSize(s, a);
    LiveBound(ps');
    if Allocates(s, a) {
      assert forall k :: 0 <= k < |ps| ==> ps'[k] == ps'[..|ps|][k] == ps[k];
    }
  }

  ghost predicate OptimalThroughout(n: nat, actions: seq<Action>) {
    forall i :: 0 <= i <= |actions| ==> |Run(n, actions[..i]).pool.packets| == Peak(n, actions[..i])
  }

  ghost predicate NeverWastes(n: nat, actions: seq<Action>) {
    forall i :: 0 <= i < |actions| ==> !Wasteful(Run(n, actions[..i]), actions[i])
  }

  lemma OptimalStep(n: nat, actions: seq<Action>, i: nat)
    requires i < |actions|
    ensures |Run(n, actions[..i]).pool.packets| == Peak(n, actions[..i]) ==>
              (|Run(n, actions[..i + 1]).pool.packets| == Peak(n, actions[..i + 1]) <==> !Wasteful(Run(n, actions[..i]), actions[i]))
  {
    assert actions[..i + 1][..i] == actions[..i];
    var s := Run(n, actions[..i]);
    if |s.pool.packets| == Peak(n, actions[..i]) { StepOptimal(s, actions[i], |s.pool.packets|); }
  }

  lemma {:induction false} OptimalSoFar(n: nat, actions: seq<Action>, i: nat)
    requires NeverWastes(n, actions) && i <= |actions|
    ensures |Run(n, actions[..i]).pool.packets| == Peak(n, actions[..i])
  {
    if i > 0 {
      OptimalSoFar(n, actions, i - 1);
      OptimalStep(n, actions, i - 1);
    } else {
      OptimalAtFirst(n, actions[..0]);
    }
  }

  lemma OptimalAtFirst(n: nat, actions: seq<Action>)
    requires actions == []
    ensures |Run(n, actions).pool.packets| == Peak(n, actions)
  {
  }

  /** In every interleaving: the number of packets allocated is throughout the largest number that were not
      DONE at the same time, iff no packet is ever allocated while one is DONE. */
  lemma OptimalIffNoWaste(n: nat, actions: seq<Action>)
    ensures OptimalThroughout(n, actions) <==> NeverWastes(n, actions)
  {
    if OptimalThroughout(n, actions) {
      forall i | 0 <= i < |actions| ensures !Wasteful(Run(n, actions[..i]), actions[i]) {
        OptimalStep(n, actions, i);
      }
    }
    if NeverWastes(n, actions) {
      forall i | 0 <= i <= |actions| ensures |Run(n, actions[..i]).pool.packets| == Peak(n, actions[..i]) {
        OptimalSoFar(n, actions, i);
      }
    }
  }

  // -------------------------------------------- get_packet without interruption

  // Inside get_packet.
  predicate InGet(pc: Pc) {
    || pc.Scan? || pc.Advance? || pc.Recycle? || pc.Fresh? || pc.FirstCas? || pc.ReadLock?
    || pc.SpinLock? || pc.Link? || pc.Publish? || pc.Unlock?
  }

  // Whoever is inside get_packet is the one to act.
  ghost predicate LetsFinish(s: State, a: Action) {
    forall t :: 0 <= t < |s.threads| && InGet(s.threads[t].pc) ==> a.OfPlugin? && a.t == t
  }

  /** Every call of get_packet runs from its first to its last instruction before anybody else acts. */
  ghost predicate Uninterrupted(n: nat, actions: seq<Action>) {
    forall i :: 0 <= i < |actions| ==> LetsFinish(Run(n, actions[..i]), actions[i])
  }

  predicate OthersPublished(q: Pool, id: nat) {
    forall k :: 0 <= k < |q.packets| && k != id ==> q.packets[k].rank > 0
  }

  predicate AllPublished(q: Pool) { forall k :: 0 <= k < |q.packets| ==> q.packets[k].rank > 0 }

  // A DONE packet is still ahead of the cursor.
  ghost predicate Ahead(q: Pool, cursor: Ref)
    requires Chained(q) && InPool(q, cursor)
  {
    forall k :: 0 <= k < |q.packets| && q.packets[k].state.Done? ==> k in Chain(q, cursor)
  }

  // What an uninterrupted call of get_packet knows.
  ghost predicate Calm(q: Pool, th: Thread)
    requires Chained(q) && ThreadOk(q, th)
  {
    match th.pc
    case Scan(cursor) => AllPublished(q) && Ahead(q, cursor)
    case Advance(id) => AllPublished(q) && PacketOk(q, q.packets[id]) && Ahead(q, q.packets[id].next)
    case Fresh(id) => OthersPublished(q, id)
    case FirstCas(id) => OthersPublished(q, id)
    case ReadLock(id) => OthersPublished(q, id)
    case SpinLock(id, _) => OthersPublished(q, id)
    case Link(id, _) => OthersPublished(q, id)
    case Publish(id, _) => OthersPublished(q, id) && q.packets[id].next == q.head
    case _ => AllPublished(q)
  }

  lemma ScanCalm(q: Pool, th: Thread, t: nat, c: Choice)
    requires Chained(q) && ThreadOk(q, th) && Calm(q, th) && (th.pc.Scan? || th.pc.Advance?)
    requires var e := LocalStep(q, th, t, c); Chained(e.pool) && ThreadOk(e.pool, e.th)
    ensures var e := LocalStep(q, th, t, c); Calm(e.pool, e.th)
    ensures th.pc == Scan(Null) ==> forall k :: 0 <= k < |q.packets| ==> !q.packets[k].state.Done?
  {
    if th.pc.Scan? && th.pc.cursor.At? {
      var id := th.pc.cursor.id;
      assert PacketOk(q, q.packets[id]);
      assert Chain(q, At(id)) == [id] + Chain(q, q.packets[id].next);
    }
  }

  lemma EnterCalm(q: Pool, th: Thread, t: nat, c: Choice)
    requires Chained(q) && Complete(q) && ThreadOk(q, th) && Calm(q, th) && th.pc.Outside?
    requires var e := LocalStep(q, th, t, c); Chained(e.pool) && ThreadOk(e.pool, e.th)
    ensures var e := LocalStep(q, th, t, c); Calm(e.pool, e.th)
  {
  }

  // From the allocation to the publication.
  lemma PushCalm(q: Pool, th: Thread, t: nat, c: Choice)
    requires Chained(q) && ThreadOk(q, th) && Calm(q, th)
    requires th.pc.Fresh? || th.pc.FirstCas? || th.pc.ReadLock? || th.pc.SpinLock? || th.pc.Link? || th.pc.Publish?
    requires var e := LocalStep(q, th, t, c); Chained(e.pool) && ThreadOk(e.pool, e.th)
    ensures var e := LocalStep(q, th, t, c); Calm(e.pool, e.th)
  {
  }

  // With the packet published, or recycled, ranks no longer change.
  lemma RestCalm(q: Pool, th: Thread, t: nat, c: Choice)
    requires ThreadOk(q, th) && AllPublished(q) && (th.pc.Recycle? || th.pc.Unlock? || InGather(th.pc))
    ensures var e := LocalStep(q, th, t, c); AllPublished(e.pool) && !InGet(e.th.pc)
  {
  }

  // Nobody but thread t is inside get_packet, and what the pool looks like then.
  ghost predicate Quietly(s: State, t: nat)
    requires Shape(s)
  {
    && Complete(s.pool)
    && (forall u :: 0 <= u < |s.threads| && u != t ==> !InGet(s.threads[u].pc))
    && (t < |s.threads| ==> ThreadOk(s.pool, s.threads[t]) && Calm(s.pool, s.threads[t]))
    && (t >= |s.threads| ==> AllPublished(s.pool))
  }

  // Some thread, or none, is inside get_packet.
  ghost predicate Orderly(s: State)
    requires Shape(s)
  {
    exists t :: 0 <= t <= |s.threads| && Quietly(s, t)
  }

  // Whoever acts next may be taken for the one inside.
  lemma HandOver(s: State, a: Action, t: nat)
    requires Shape(s) && t <= |s.threads| && Quietly(s, t) && LetsFinish(s, a)
    ensures Quietly(s, if a.OfPlugin? && a.t < |s.threads| then a.t else |s.threads|)
  {
    var next := if a.OfPlugin? && a.t < |s.threads| then a.t else |s.threads|;
    if next < |s.threads| { assert ThreadOk(s.pool, s.threads[next]); }
    if t < |s.threads| && next != t {
      assert !InGet(s.threads[t].pc);
      assert AllPublished(s.pool);
    }
  }

  lemma CalmEffect(q: Pool, th: Thread, t: nat, c: Choice)
    requires Chained(q) && Complete(q) && ThreadOk(q, th) && Calm(q, th)
    requires !th.pc.PostLock? && !th.pc.PostHold?
    requires var e := LocalStep(q, th, t, c); Chained(e.pool) && ThreadOk(e.pool, e.th)
    ensures var e := LocalStep(q, th, t, c); Calm(e.pool, e.th)
    ensures th.pc == Scan(Null) ==> forall k :: 0 <= k < |q.packets| ==> !q.packets[k].state.Done?
  {
    if th.pc.Scan? || th.pc.Advance? { ScanCalm(q, th, t, c); }
    else if th.pc.Outside? { EnterCalm(q, th, t, c); }
    else if th.pc.Recycle? || th.pc.Unlock? || InGather(th.pc) { RestCalm(q, th, t, c); }
    else { PushCalm(q, th, t, c); }
  }

  lemma EffectQuiet(s: State, t: nat, e: Effect)
    requires Shape(s) && t < |s.threads| && Quietly(s, t)
    requires Shape(Effected(s, t, e)) && Complete(e.pool) && ThreadOk(e.pool, e.th) && Calm(e.pool, e.th)
    ensures Quietly(Effected(s, t, e), t)
  {
  }

  lemma PostQuiet(s: State, t: nat, c: Choice)
    requires Shape(s) && t < |s.threads| && Quietly(s, t) && (s.threads[t].pc.PostLock? || s.threads[t].pc.PostHold?)
    requires Shape(ThreadStep(s, t, c))
    ensures Quietly(ThreadStep(s, t, c), t)
  {
    assert ThreadOk(s.pool, ThreadStep(s, t, c).threads[t]);
  }

  lemma ThreadQuiet(s: State, t: nat, c: Choice)
    requires Inv(s) && t < |s.threads| && Quietly(s, t)
    ensures Shape(ThreadStep(s, t, c)) && Quietly(ThreadStep(s, t, c), t) && |ThreadStep(s, t, c).threads| == |s.threads|
    ensures !Wasteful(s, OfPlugin(t, c))
  {
    var q, th := s.pool, s.threads[t];
    StepComplete(s, OfPlugin(t, c));
    assert Complete(ThreadStep(s, t, c).pool);
    if th.pc.PostLock? || th.pc.PostHold? {
      PostQuiet(s, t, c);
    } else {
      var e := LocalStep(q, th, t, c);
      assert ThreadStep(s, t, c) == Effected(s, t, e);
      assert Effected(s, t, e).threads[t] == e.th;
      CalmEffect(q, th, t, c);
      EffectQuiet(s, t, e);
    }
  }

  lemma StorageQuiet(s: State, ok: bool)
    requires Inv(s) && Quietly(s, |s.threads|)
    ensures Shape(StorageStep(s, ok)) && Quietly(StorageStep(s, ok), |s.threads|) && |StorageStep(s, ok).threads| == |s.threads|
  {
    StepComplete(s, OfStorage(ok));
    StorageRanks(s, ok);
  }

  lemma StorageRanks(s: State, ok: bool)
    requires Shape(s) && AllPublished(s.pool)
    ensures AllPublished(StorageStep(s, ok).pool) && StorageStep(s, ok).threads == s.threads
  {
  }

  lemma StepOrderly(s: State, a: Action)
    requires Inv(s) && Orderly(s) && LetsFinish(s, a)
    ensures Shape(Step(s, a)) && Orderly(Step(s, a)) && !Wasteful(s, a)
  {
    var t :| 0 <= t <= |s.threads| && Quietly(s, t);
    HandOver(s, a, t);
    match a
    case OfPlugin(u, c) =>
      if u < |s.threads| {
        ThreadQuiet(s, u, c);
        Witness(ThreadStep(s, u, c), u);
      } else {
        Witness(s, |s.threads|);
      }
    case OfStorage(ok) =>
      StorageQuiet(s, ok);
      Witness(StorageStep(s, ok), |s.threads|);
  }

  lemma Witness(s: State, t: nat)
    requires Shape(s) && t <= |s.threads| && Quietly(s, t)
    ensures Orderly(s)
  {
  }

  lemma {:induction false} RunOrderly(n: nat, actions: seq<Action>, i: nat)
    requires Uninterrupted(n, actions) && i <= |actions|
    ensures Orderly(Run(n, actions[..i]))
  {
    if i == 0 {
      InitOrderly(n);
    } else {
      RunOrderly(n, actions, i - 1);
      NextOrderly(n, actions, i - 1);
    }
  }

  lemma NextOrderly(n: nat, actions: seq<Action>, i: nat)
    requires i < |actions|
    ensures Orderly(Run(n, actions[..i])) && LetsFinish(Run(n, actions[..i]), actions[i]) ==>
              Orderly(Run(n, actions[..i + 1])) && !Wasteful(Run(n, actions[..i]), actions[i])
  {
    var s := Run(n, actions[..i]);
    PrefixStep(n, actions, i);
    if Orderly(s) && LetsFinish(s, actions[i]) { StepOrderly(s, actions[i]); }
  }

  lemma InitOrderly(n: nat)
    ensures Orderly(Run(n, []))
  {
    assert Quietly(Run(n, []), n);
  }

  lemma PrefixStep(n: nat, actions: seq<Action>, i: nat)
    requires i < |actions|
    ensures Run(n, actions[..i + 1]) == Step(Run(n, actions[..i]), actions[i])
  {
    assert actions[..i + 1][..i] == actions[..i];
  }

  /** Growth is optimal: in every run of any number of plugins and storage in which get_packet is not
      interrupted, the number of packets allocated is the largest number that were not DONE at once. */
  lemma GrowthIsOptimal(n: nat, actions: seq<Action>)
    requires Uninterrupted(n, actions)
    ensures |Run(n, actions).pool.packets| == Peak(n, actions)
  {
    forall i | 0 <= i < |actions| ensures !Wasteful(Run(n, actions[..i]), actions[i]) {
      RunOrderly(n, actions, i);
      NextOrderly(n, actions, i);
    }
    OptimalIffNoWaste(n, actions);
    assert actions[..|actions|] == actions;
  }

  // ------------------------------------------------------ a wasteful run

  const BEHIND := Duo(Pool([Packet(Metric, Done, false, Null, 1, [])], At(0), 1),
                      Thread(Scan(Null), Null, 0), Thread(Forget(0), At(0), 0))

  // Thread 0 passes packet 0 while thread 1 still holds it; then thread 1 drops it.
  lemma Passes() returns (script: Script)
    ensures Play(OPENED, script) == BEHIND
  {
    script := Then(0, EnterGather, Then(0, GO, Then(1, GO, Then(1, Flag(true), Then(0, GO, End)))));
    var d1 := Move(OPENED, 0, EnterGather);
    var d2 := Move(d1, 0, GO);
    var d3 := Move(d2, 1, GO);
    var d4 := Move(d3, 1, Flag(true));
    var d5 := Move(d4, 0, GO);
    assert d5 == BEHIND;
  }

  /** Interrupted, get_packet can allocate a packet although one has become DONE behind its cursor. */
  lemma InterruptedCanWaste(n: nat) returns (actions: seq<Action>)
    requires n >= 2
    ensures !OptimalThroughout(n, actions)
  {
    assert View(Run(n, [])) == START;
    var script := Opens();
    actions := PlayAll(n, [], script);
    script := Passes();
    actions := PlayAll(n, actions, script);
    var before := actions;
    actions := before + [OfPlugin(0, GO)];
    assert actions[..|before|] == before;
    assert Run(n, before).pool.packets[0].state.Done?;
    assert Wasteful(Run(n, before), OfPlugin(0, GO));
    OptimalIffNoWaste(n, actions);
  }
}
