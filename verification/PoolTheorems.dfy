/**
 What every run of the packet pool guarantees: exclusive ownership, the packet
 state cycle, sender mutual exclusion, conservation of records, and no lock left
 behind.
 */
module PoolTheorems {
  import opened PacketTypes
  import opened PacketPool
  import opened PoolRuns

  // ----------------------------------------------------------- ownership

  /** Every packet is held by exactly one thread while EMPTY, BEGIN or WROTE, and by none otherwise. */
  lemma ExclusiveOwnership(n: nat, actions: seq<Action>)
    ensures var s := Run(n, actions);
            && (forall t, u :: 0 <= t < n && 0 <= u < n && Held(s.threads[t]).At? && Held(s.threads[t]) == Held(s.threads[u]) ==> t == u)
            && (forall k :: 0 <= k < |s.pool.packets| ==> (Being(s.pool.packets[k]) <==> HasHolder(s.threads, k)))
  {
    var s := Run(n, actions);
    forall k | 0 <= k < |s.pool.packets| && HasHolder(s.threads, k) ensures Being(s.pool.packets[k]) {
      var t :| 0 <= t < n && Held(s.threads[t]) == At(k);
      assert ThreadOk(s.pool, s.threads[t]);
    }
  }

  /** Two `working` pointers coincide only while one of the threads is about to clear its own. */
  lemma SharedWorkingIsStale(n: nat, actions: seq<Action>, t: nat, u: nat)
    requires t < u < n
    ensures var s := Run(n, actions); var a, b := s.threads[t], s.threads[u];
            a.working.At? && a.working == b.working ==> a.pc.Forget? || b.pc.Forget?
  {
    var s := Run(n, actions);
    assert ThreadOk(s.pool, s.threads[t]) && ThreadOk(s.pool, s.threads[u]);
  }

  // ----------------------------------------------------- the state cycle

  // The changes of state an instruction of thread t may make to a packet.
  predicate PluginMoves(p: Packet, p': Packet, holds: bool, holds': bool) {
    || p'.state == p.state
    || (p.state.Done? && p'.state.Empty? && !holds && holds')
    || (holds && holds' && p.state.Empty? && p'.state.Begin?)
    || (holds && holds' && p.state.Begin? && p'.state.Wrote?)
    || (holds && !holds' && p.state.Wrote? && p'.state.Ready?)
    || (holds && !holds' && p.state.Begin? && p'.state.Done? && p.records == [])
  }

  lemma EffectCycle(q: Pool, th: Thread, t: nat, c: Choice, k: nat)
    requires ThreadOk(q, th) && !th.pc.PostLock? && !th.pc.PostHold? && k < |q.packets|
    ensures var e := LocalStep(q, th, t, c);
            && |q.packets| <= |e.pool.packets|
            && PluginMoves(q.packets[k], e.pool.packets[k], Held(th) == At(k), Held(e.th) == At(k))
  {
  }

  // The moves instruction a may make with the state of packet k.
  predicate Moves(s: State, s': State, a: Action, k: nat)
    requires k < |s.pool.packets| <= |s'.pool.packets| && |s'.threads| == |s.threads|
  {
    var p, p' := s.pool.packets[k], s'.pool.packets[k];
    match a
    case OfPlugin(t, _) =>
      if t < |s.threads| then PluginMoves(p, p', Held(s.threads[t]) == At(k), Held(s'.threads[t]) == At(k)) else p' == p
    case OfStorage(_) =>
      p'.state == p.state || (p.state.Ready? && p'.state.Done? && s.storage == MarkDone(k))
  }

  lemma StepMoves(s: State, a: Action, k: nat)
    requires Shape(s) && k < |s.pool.packets|
    ensures var s' := Step(s, a); |s.pool.packets| <= |s'.pool.packets| && |s'.threads| == |s.threads| && Moves(s, s', a, k)
  {
    if a.OfPlugin? && a.t < |s.threads| {
      var th := s.threads[a.t];
      assert ThreadOk(s.pool, th);
      if !th.pc.PostLock? && !th.pc.PostHold? { EffectCycle(s.pool, th, a.t, a.choice, k); }
    }
  }

  lemma RunStep(n: nat, actions: seq<Action>, a: Action)
    ensures Run(n, actions + [a]) == Step(Run(n, actions), a)
  {
    assert (actions + [a])[..|actions|] == actions;
  }

  /** EMPTY, BEGIN, WROTE, READY, DONE and back: who may make which move.  Only storage takes
      READY to DONE, after an accepted post; only one claimer takes a DONE to EMPTY and then holds it;
      a packet that expires without records goes to DONE without ever being READY. */
  lemma StateCycle(n: nat, actions: seq<Action>, a: Action)
    ensures var s := Run(n, actions); var s' := Run(n, actions + [a]);
            && |s.pool.packets| <= |s'.pool.packets|
            && forall k :: 0 <= k < |s.pool.packets| ==> Moves(s, s', a, k)
  {
    RunStep(n, actions, a);
    var s := Run(n, actions);
    StepGrows(s, a);
    forall k | 0 <= k < |s.pool.packets| ensures Moves(s, Step(s, a), a, k) { StepMoves(s, a, k); }
  }

  lemma StepGrows(s: State, a: Action)
    requires Shape(s)
    ensures |s.pool.packets| <= |Step(s, a).pool.packets| && |Step(s, a).threads| == |s.threads|
  {
    if a.OfPlugin? && a.t < |s.threads| { assert ThreadOk(s.pool, s.threads[a.t]); }
  }

  // -------------------------------------------------------- sender locks

  // Thread t, or storage when t == n, is between sender.c:65 and 70 for packets of this type.
  predicate Sends(s: State, t: nat, kind: PacketType) {
    if t < |s.threads| then s.threads[t].pc == PostHold(kind) else t == |s.threads| && StorageSends(s, kind)
  }

  /** At most one thread uses a type's handle at a time, its lock is then taken, and the lock storage
      clears (re-reading the packet's type) is the one it took. */
  lemma SenderLock(n: nat, actions: seq<Action>, kind: PacketType)
    ensures var s := Run(n, actions);
            && (forall t, u :: 0 <= t < u <= n && Sends(s, t, kind) ==> !Sends(s, u, kind))
            && (forall t :: 0 <= t <= n && Sends(s, t, kind) ==> kind in s.busy)
            && (s.storage.Release? ==> s.pool.packets[s.storage.id].kind == s.storage.taken)
  {
    var s := Run(n, actions);
    forall t, u | 0 <= t < u <= n && Sends(s, t, kind) ensures !Sends(s, u, kind) {
      assert s.threads[t].pc.PostHold?;
    }
  }

  // ------------------------------------------------------- packet spins

  // The thread took the spin of packet k as the head's lock and will clear it.
  predicate HoldsSpin(pc: Pc, k: nat) { (pc.Link? || pc.Publish? || pc.Unlock?) && pc.lock == k }

  ghost predicate SpinHeld(s: State, k: nat) {
    s.storage == Fetched(k) || exists t :: 0 <= t < |s.threads| && HoldsSpin(s.threads[t].pc, k)
  }

  ghost predicate Spins(s: State) {
    forall k :: 0 <= k < |s.pool.packets| && s.pool.packets[k].spin ==> SpinHeld(s, k)
  }

  lemma EffectSpins(q: Pool, th: Thread, t: nat, c: Choice)
    requires ThreadOk(q, th) && !th.pc.PostLock? && !th.pc.PostHold?
    ensures var e := LocalStep(q, th, t, c);
            forall j :: 0 <= j < |e.pool.packets| && e.pool.packets[j].spin ==>
              HoldsSpin(e.th.pc, j) || (j < |q.packets| && q.packets[j].spin && !HoldsSpin(th.pc, j))
  {
  }

  lemma ThreadSpins(s: State, t: nat, e: Effect)
    requires Spins(s) && t < |s.threads|
    requires forall j :: 0 <= j < |e.pool.packets| && e.pool.packets[j].spin ==>
               HoldsSpin(e.th.pc, j) || (j < |s.pool.packets| && s.pool.packets[j].spin && !HoldsSpin(s.threads[t].pc, j))
    ensures Spins(Effected(s, t, e))
  {
    var s' := Effected(s, t, e);
    forall k | 0 <= k < |s'.pool.packets| && s'.pool.packets[k].spin ensures SpinHeld(s', k) {
      if HoldsSpin(e.th.pc, k) {
        assert HoldsSpin(s'.threads[t].pc, k);
      } else if s.storage != Fetched(k) {
        var u :| 0 <= u < |s.threads| && HoldsSpin(s.threads[u].pc, k);
        assert HoldsSpin(s'.threads[u].pc, k);
      }
    }
  }

  lemma PostSpins(s: State, t: nat, c: Choice)
    requires Shape(s) && Spins(s) && t < |s.threads| && ThreadOk(s.pool, s.threads[t])
    requires s.threads[t].pc.PostLock? || s.threads[t].pc.PostHold?
    ensures Spins(ThreadStep(s, t, c))
  {
    var s' := ThreadStep(s, t, c);
    forall k | 0 <= k < |s.pool.packets| && s.pool.packets[k].spin ensures SpinHeld(s', k) {
      if s.storage != Fetched(k) {
        var u :| 0 <= u < |s.threads| && HoldsSpin(s.threads[u].pc, k);
        assert HoldsSpin(s'.threads[u].pc, k);
      }
    }
  }

  lemma StorageSpins(s: State, ok: bool)
    requires Shape(s) && Spins(s)
    ensures Spins(StorageStep(s, ok))
  {
    var s' := StorageStep(s, ok);
    forall k | 0 <= k < |s'.pool.packets| && s'.pool.packets[k].spin ensures SpinHeld(s', k) {
      if s'.storage != Fetched(k) {
        assert s.pool.packets[k].spin && s.storage != Fetched(k);
        var u :| 0 <= u < |s.threads| && HoldsSpin(s.threads[u].pc, k);
        assert HoldsSpin(s'.threads[u].pc, k);
      }
    }
  }

  lemma StepSpins(s: State, a: Action)
    requires Shape(s) && Spins(s)
    ensures Spins(Step(s, a))
  {
    match a
    case OfPlugin(t, c) =>
      if t < |s.threads| {
        var th := s.threads[t];
        assert ThreadOk(s.pool, th);
        if th.pc.PostLock? || th.pc.PostHold? {
          PostSpins(s, t, c);
        } else {
          EffectSpins(s.pool, th, t, c);
          ThreadSpins(s, t, LocalStep(s.pool, th, t, c));
        }
      }
    case OfStorage(ok) => StorageSpins(s, ok);
  }

  /** A set spin always has somebody who will clear it: storage between its two stores, or a thread inside the
      push.  So neither the loop that locks the head nor the one in packet_fetch waits for nobody. */
  lemma {:induction false} NoSpinLeftSet(n: nat, actions: seq<Action>)
    ensures Spins(Run(n, actions))
  {
    if actions != [] {
      NoSpinLeftSet(n, actions[..|actions| - 1]);
      StepSpins(Run(n, actions[..|actions| - 1]), actions[|actions| - 1]);
    }
  }

  // -------------------------------------------------------- conservation

  // Record r waits in packet k: the packet is WROTE or READY and not yet accepted.
  predicate WaitsIn(s: State, k: nat, r: Record)
    requires k < |s.pool.packets|
  {
    (s.pool.packets[k].state.Wrote? || s.pool.packets[k].state.Ready?) && !Posted(s.storage, k) && r in s.pool.packets[k].records
  }

  lemma {:induction false} OnceInSeq(rs: seq<Record>, r: Record)
    requires forall i, j :: 0 <= i < j < |rs| ==> rs[i] != rs[j]
    ensures multiset(rs)[r] == (if r in rs then 1 else 0)
  {
    if rs != [] {
      var n := |rs| - 1;
      OnceInSeq(rs[..n], r);
      assert rs == rs[..n] + [rs[n]];
    }
  }

  /** Conservation: a record is committed iff it is in the accepted log or waits in a packet; never
      both, never in two packets, never accepted twice. */
  lemma Conservation(n: nat, actions: seq<Action>, r: Record)
    ensures var s := Run(n, actions);
            && (r in s.committed <==> r in s.accepted || exists k :: 0 <= k < |s.pool.packets| && WaitsIn(s, k, r))
            && (r in s.accepted ==> multiset(s.accepted)[r] == 1 && forall k :: 0 <= k < |s.pool.packets| ==> !WaitsIn(s, k, r))
            && (forall j, k :: 0 <= j < k < |s.pool.packets| && WaitsIn(s, j, r) ==> !WaitsIn(s, k, r))
  {
    var s := Run(n, actions);
    var shares := Shares(s.pool, s.storage);
    OnceInSeq(s.committed, r);
    TotalHas(shares, r);
    assert multiset(s.committed)[r] == multiset(s.accepted)[r] + Total(shares)[r];
    assert r in s.accepted <==> multiset(s.accepted)[r] > 0;
    forall k | 0 <= k < |shares| ensures r in shares[k] <==> WaitsIn(s, k, r) {
    }
  }

  /** A record leaves the pool only through a post that returned 0, and all of its packet goes with it. */
  lemma LeavesByAcceptance(n: nat, actions: seq<Action>, a: Action, r: Record)
    ensures var s := Run(n, actions); var s' := Run(n, actions + [a]);
            && |s.pool.packets| <= |s'.pool.packets|
            && forall k :: 0 <= k < |s.pool.packets| && WaitsIn(s, k, r) && !WaitsIn(s', k, r) ==>
                 && a == OfStorage(true) && s.storage.Sending? && s.storage.id == k
                 && s'.accepted == s.accepted + s.pool.packets[k].records
  {
    RunStep(n, actions, a);
    var s := Run(n, actions);
    var s' := Step(s, a);
    StepGrows(s, a);
    forall k | 0 <= k < |s.pool.packets| && WaitsIn(s, k, r) && !WaitsIn(s', k, r)
      ensures a == OfStorage(true) && s.storage.Sending? && s.storage.id == k && s'.accepted == s.accepted + s.pool.packets[k].records
    {
      StepLeaves(s, a, k, r);
    }
  }

  lemma StepLeaves(s: State, a: Action, k: nat, r: Record)
    requires Shape(s) && k < |s.pool.packets| && WaitsIn(s, k, r)
    ensures var s' := Step(s, a);
            && |s.pool.packets| <= |s'.pool.packets|
            && (!WaitsIn(s', k, r) ==>
                  && a == OfStorage(true) && s.storage.Sending? && s.storage.id == k
                  && s'.accepted == s.accepted + s.pool.packets[k].records)
  {
    if a.OfPlugin? && a.t < |s.threads| {
      var th := s.threads[a.t];
      assert ThreadOk(s.pool, th);
      if !th.pc.PostLock? && !th.pc.PostHold? { StillWaits(s.pool, th, a.t, a.choice, k, r); }
    }
  }

  lemma StillWaits(q: Pool, th: Thread, t: nat, c: Choice, k: nat, r: Record)
    requires ThreadOk(q, th) && !th.pc.PostLock? && !th.pc.PostHold?
    requires k < |q.packets| && (q.packets[k].state.Wrote? || q.packets[k].state.Ready?) && r in q.packets[k].records
    ensures var e := LocalStep(q, th, t, c);
            && |q.packets| <= |e.pool.packets| && r in e.pool.packets[k].records
            && (e.pool.packets[k].state.Wrote? || e.pool.packets[k].state.Ready?)
  {
  }
}
