/**
 The linked list of packets: acyclic in every interleaving, and complete exactly
 when no push publishes over a head it did not read.
 */
module PoolList {
  import opened PacketTypes
  import opened PacketPool
  import opened PoolRuns

  function RankOf(q: Pool, r: Ref): nat
    requires InPool(q, r)
  {
    if r.Null? then 0 else q.packets[r.id].rank
  }

  /** The packets met by following `next` from r; publication rank is the termination measure. */
  ghost function Chain(q: Pool, r: Ref): (ids: seq<nat>)
    requires Chained(q) && InPool(q, r)
    ensures |ids| <= RankOf(q, r)
    ensures forall i :: 0 <= i < |ids| ==> ids[i] < |q.packets| && 0 < q.packets[ids[i]].rank <= RankOf(q, r)
    ensures forall i, j :: 0 <= i < j < |ids| ==> q.packets[ids[j]].rank < q.packets[ids[i]].rank
    decreases RankOf(q, r)
  {
    if r.Null? then [] else
      assert PacketOk(q, q.packets[r.id]);
      [r.id] + Chain(q, q.packets[r.id].next)
  }

  // Following `next` from r reaches null, so r's list has no cycle, and visits nothing twice.
  lemma ChainIsSimple(q: Pool, r: Ref)
    requires Chained(q) && InPool(q, r)
    ensures var ids := Chain(q, r);
            && (forall i, j :: 0 <= i < j < |ids| ==> ids[i] != ids[j])
            && (forall i :: 0 <= i < |ids| - 1 ==> q.packets[ids[i]].next == At(ids[i + 1]))
            && (|ids| > 0 ==> r == At(ids[0]) && q.packets[ids[|ids| - 1]].next.Null?)
    decreases RankOf(q, r)
  {
    if r.At? {
      assert PacketOk(q, q.packets[r.id]);
      ChainIsSimple(q, q.packets[r.id].next);
    }
  }

  /** In every interleaving, overlapping pushes included, the list is acyclic, the head never returns to
      null, and a published packet keeps its rank and its link. */
  lemma Acyclic(n: nat, actions: seq<Action>, a: Action)
    ensures var s := Run(n, actions); var ids := Chain(s.pool, s.pool.head);
            forall i, j :: 0 <= i < j < |ids| ==> ids[i] != ids[j]
    ensures var q, q' := Run(n, actions).pool, Run(n, actions + [a]).pool;
            && q.pushed <= q'.pushed && (q.head.At? ==> q'.head.At?)
            && |q.packets| <= |q'.packets|
            && (forall k :: 0 <= k < |q.packets| && q.packets[k].rank > 0 ==>
                  q'.packets[k].rank == q.packets[k].rank && q'.packets[k].next == q.packets[k].next)
  {
    var s := Run(n, actions);
    ChainIsSimple(s.pool, s.pool.head);
    assert (actions + [a])[..|actions|] == actions;
    StepFrozen(s, a);
  }

  /** Every traversal terminates: a cursor that moves on moves to a packet published strictly earlier. */
  lemma CursorDescends(n: nat, actions: seq<Action>, a: Action)
    ensures var s := Run(n, actions); var s' := Step(s, a); var q := s.pool;
            && (a.OfPlugin? && a.t < n && s.threads[a.t].pc.Advance? && s'.threads[a.t].pc.cursor.At? ==>
                  var from, to := s.threads[a.t].pc.id, s'.threads[a.t].pc.cursor.id;
                  to < |q.packets| && from < |q.packets| && 0 < q.packets[to].rank < q.packets[from].rank)
            && (a.OfStorage? && s.storage.Skip? && s'.storage.cursor.At? ==>
                  var from, to := s.storage.id, s'.storage.cursor.id;
                  to < |q.packets| && from < |q.packets| && 0 < q.packets[to].rank < q.packets[from].rank)
  {
    var s := Run(n, actions);
    if a.OfPlugin? && a.t < n && s.threads[a.t].pc.Advance? {
      assert ThreadOk(s.pool, s.threads[a.t]);
      assert PacketOk(s.pool, s.pool.packets[s.threads[a.t].pc.id]);
    }
    if a.OfStorage? && s.storage.Skip? {
      assert PacketOk(s.pool, s.pool.packets[s.storage.id]);
    }
  }

  // Once published, a packet's links never change.
  ghost predicate Frozen(q: Pool, q': Pool) {
    && q.pushed <= q'.pushed && (q.head.At? ==> q'.head.At?)
    && |q.packets| <= |q'.packets|
    && (forall k :: 0 <= k < |q.packets| && q.packets[k].rank > 0 ==>
          q'.packets[k].rank == q.packets[k].rank && q'.packets[k].next == q.packets[k].next)
  }

  lemma LocalFrozen(q: Pool, q': Pool, k: nat)
    requires Local(q, q', k)
    ensures Frozen(q, q')
  {
  }

  lemma StepFrozen(s: State, a: Action)
    requires Shape(s)
    ensures Frozen(s.pool, Step(s, a).pool)
  {
    if a.OfPlugin? && a.t < |s.threads| {
      var th := s.threads[a.t];
      assert ThreadOk(s.pool, th);
      if !th.pc.PostLock? && !th.pc.PostHold? {
        LocalStepSound(s.pool, th, a.t, a.choice);
        LocalFrozen(s.pool, LocalStep(s.pool, th, a.t, a.choice).pool, Target(s.pool, th));
      }
    }
  }

  // ------------------------------------------------------ lost packets

  // Every published packet can be reached from the head.
  ghost predicate Complete(q: Pool)
    requires Chained(q)
  {
    forall k :: 0 <= k < |q.packets| && q.packets[k].rank > 0 ==> k in Chain(q, q.head)
  }

  /** The store at storage.c:75 is about to overwrite a head other than the one read at line 74. */
  predicate Overtaken(s: State, a: Action)
    requires Shape(s)
  {
    a.OfPlugin? && a.t < |s.threads| && ThreadOk(s.pool, s.threads[a.t])
    && s.threads[a.t].pc.Publish? && s.pool.packets[s.threads[a.t].pc.id].next != s.pool.head
  }

  lemma {:induction false} ChainFrozen(q: Pool, q': Pool, r: Ref)
    requires Chained(q) && Chained(q') && Frozen(q, q') && InPool(q, r)
    ensures InPool(q', r) && Chain(q', r) == Chain(q, r)
    decreases RankOf(q, r)
  {
    if r.At? {
      assert PacketOk(q, q.packets[r.id]);
      ChainFrozen(q, q', q.packets[r.id].next);
    }
  }

  // Instructions that do not publish leave completeness as it is.
  lemma QuietStep(q: Pool, q': Pool)
    requires Chained(q) && Chained(q') && Frozen(q, q') && q'.head == q.head
    requires forall k :: 0 <= k < |q'.packets| && q'.packets[k].rank > 0 ==> k < |q.packets| && q.packets[k].rank > 0
    ensures Complete(q') <==> Complete(q)
  {
    ChainFrozen(q, q', q.head);
    if Complete(q') {
      forall k | 0 <= k < |q.packets| && q.packets[k].rank > 0 ensures k in Chain(q, q.head) {
        assert q'.packets[k].rank > 0;
      }
    }
  }

  // Publishing packet id keeps the list complete exactly if id links to the current head.
  lemma PublishStep(q: Pool, id: nat)
    requires Linked(q) && Complete(q)
    requires id < |q.packets| && q.packets[id].rank == 0
    requires Linked(Published(q, id))
    ensures Complete(Published(q, id)) <==> q.packets[id].next == q.head
  {
    var q' := Published(q, id);
    var next := q.packets[id].next;
    assert PacketOk(q, q.packets[id]) && PacketOk(q', q'.packets[id]);
    ChainFrozen(q, q', next);
    assert Chain(q', q'.head) == [id] + Chain(q, next);
    if next == q.head {
      forall k | 0 <= k < |q'.packets| && q'.packets[k].rank > 0 ensures k in Chain(q', q'.head) {
        if k != id { assert q.packets[k].rank > 0; assert k in Chain(q, q.head); }
      }
    } else if q.head.At? {
      // the old head has the largest rank of all, so no list from an older packet contains it
      var h := q.head.id;
      assert PacketOk(q, q.packets[h]);
      if next.At? { assert PacketOk(q, q.packets[next.id]); assert q.packets[next.id].rank != q.packets[h].rank; }
      assert h !in Chain(q, next);
      assert q'.packets[h].rank > 0 && h !in Chain(q', q'.head);
    }
  }

  // The instruction stores to `packets`.
  predicate Publishes(s: State, a: Action) {
    a.OfPlugin? && a.t < |s.threads| && (s.threads[a.t].pc.Publish? || (s.threads[a.t].pc.FirstCas? && s.pool.head.Null?))
  }

  lemma Quiet(s: State, a: Action)
    requires Shape(s) && !Publishes(s, a)
    ensures var q, q' := s.pool, Step(s, a).pool;
            && q'.head == q.head
            && (forall k :: 0 <= k < |q'.packets| && q'.packets[k].rank > 0 ==> k < |q.packets| && q.packets[k].rank > 0)
  {
    if a.OfPlugin? && a.t < |s.threads| {
      var th := s.threads[a.t];
      assert ThreadOk(s.pool, th);
    }
  }

  /** An instruction keeps the list complete iff it does not publish over a head it did not read. */
  lemma StepComplete(s: State, a: Action)
    requires Inv(s) && Complete(s.pool)
    ensures Shape(Step(s, a)) && (Complete(Step(s, a).pool) <==> !Overtaken(s, a))
  {
    StepInv(s, a);
    StepFrozen(s, a);
    if Publishes(s, a) {
      var th := s.threads[a.t];
      assert ThreadOk(s.pool, th);
      PublishStep(s.pool, th.pc.id);
    } else {
      Quiet(s, a);
      QuietStep(s.pool, Step(s, a).pool);
    }
  }

  ghost predicate NeverLost(n: nat, actions: seq<Action>) {
    forall i :: 0 <= i <= |actions| ==> Complete(Run(n, actions[..i]).pool)
  }

  ghost predicate Serialised(n: nat, actions: seq<Action>) {
    forall i :: 0 <= i < |actions| ==> !Overtaken(Run(n, actions[..i]), actions[i])
  }

  lemma NotOvertaken(n: nat, actions: seq<Action>, i: nat)
    requires i < |actions|
    ensures Complete(Run(n, actions[..i]).pool) && Complete(Run(n, actions[..i + 1]).pool) ==>
              !Overtaken(Run(n, actions[..i]), actions[i])
  {
    assert actions[..i + 1][..i] == actions[..i];
    if Complete(Run(n, actions[..i]).pool) { StepComplete(Run(n, actions[..i]), actions[i]); }
  }

  /** No published packet ever drops out of the list of a run iff every push of the run stores over
      the head it linked to. */
  lemma {:induction false} LostIffOvertaken(n: nat, actions: seq<Action>)
    ensures NeverLost(n, actions) <==> Serialised(n, actions)
  {
    if NeverLost(n, actions) {
      forall i | 0 <= i < |actions| ensures !Overtaken(Run(n, actions[..i]), actions[i]) {
        NotOvertaken(n, actions, i);
      }
    }
    if Serialised(n, actions) {
      forall i | 0 <= i <= |actions| ensures Complete(Run(n, actions[..i]).pool) {
        CompleteSoFar(n, actions, i);
      }
    }
  }

  lemma {:induction false} CompleteSoFar(n: nat, actions: seq<Action>, i: nat)
    requires Serialised(n, actions) && i <= |actions|
    ensures Complete(Run(n, actions[..i]).pool)
  {
    if i > 0 {
      CompleteSoFar(n, actions, i - 1);
      assert actions[..i][..i - 1] == actions[..i - 1];
      StepComplete(Run(n, actions[..i - 1]), actions[i - 1]);
    }
  }
}
