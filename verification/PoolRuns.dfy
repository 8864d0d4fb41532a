/**
 Runs of the packet pool: what holds after every sequence of instructions of any
 number of plugin threads and the storage thread.
 */
module PoolRuns {
  import opened PacketTypes
  import opened PacketPool

  // ------------------------------------------------------- sender locks

  predicate StorageSends(s: State, kind: PacketType) {
    (s.storage.Sending? || s.storage.Release?) && s.storage.taken == kind
  }

  // At most one thread is between sender.c:65 and 70 for a type, and its lock is taken.
  ghost predicate Senders(s: State) {
    && (forall t :: 0 <= t < |s.threads| && s.threads[t].pc.PostHold? ==>
          s.threads[t].pc.kind in s.busy && !StorageSends(s, s.threads[t].pc.kind))
    && (forall t, u :: 0 <= t < u < |s.threads| && s.threads[t].pc.PostHold? ==> s.threads[t].pc != s.threads[u].pc)
    && (s.storage.Sending? || s.storage.Release? ==> s.storage.taken in s.busy)
  }

  lemma EffectSenders(s: State, t: nat, e: Effect)
    requires Senders(s) && t < |s.threads| && !e.th.pc.PostHold?
    ensures Senders(Effected(s, t, e))
  {
  }

  lemma StorageSenders(s: State, ok: bool)
    requires Shape(s) && Senders(s)
    ensures Senders(StorageStep(s, ok))
  {
  }

  // ------------------------------------------------- every packet accounted for

  ghost predicate HasHolder(threads: seq<Thread>, k: nat) {
    exists t :: 0 <= t < |threads| && Held(threads[t]) == At(k)
  }

  // Every packet is DONE, READY, or held by a thread.
  ghost predicate Accounted(s: State) {
    forall k :: 0 <= k < |s.pool.packets| && Being(s.pool.packets[k]) ==> HasHolder(s.threads, k)
  }

  lemma HolderKept(threads: seq<Thread>, t: nat, th: Thread, k: nat)
    requires t < |threads| && HasHolder(threads, k)
    requires Held(threads[t]) == At(k) ==> Held(th) == At(k)
    ensures HasHolder(threads[t := th], k)
  {
    var u :| 0 <= u < |threads| && Held(threads[u]) == At(k);
    assert Held(threads[t := th][u]) == At(k);
  }

  lemma EffectAccounted(s: State, t: nat, e: Effect)
    requires Shape(s) && Accounted(s) && t < |s.threads|
    requires Sound(s.pool, s.threads[t], e)
    ensures Accounted(Effected(s, t, e))
  {
    var q, th, k := s.pool, s.threads[t], Target(s.pool, s.threads[t]);
    forall j | 0 <= j < |e.pool.packets| && Being(e.pool.packets[j]) ensures HasHolder(s.threads[t := e.th], j) {
      if Held(e.th) == At(j) {
        assert Held(s.threads[t := e.th][t]) == At(j);
      } else {
        HolderKept(s.threads, t, e.th, j);
      }
    }
  }

  lemma StorageAccounted(s: State, ok: bool)
    requires StorageOk(s.pool, s.storage) && Accounted(s)
    ensures Accounted(StorageStep(s, ok))
  {
    var s' := StorageStep(s, ok);
    forall k | 0 <= k < |s'.pool.packets| && Being(s'.pool.packets[k]) ensures HasHolder(s'.threads, k) {
      assert Being(s.pool.packets[k]);
    }
  }

  // ---------------------------------------------------------- the ledger

  // The packet's post has returned 0 and its state is about to become DONE.
  predicate Posted(storage: StoragePc, k: nat) {
    (storage.Release? && storage.ok && storage.id == k) || storage == MarkDone(k)
  }

  // The undelivered records of each packet.
  function Shares(q: Pool, storage: StoragePc): seq<multiset<Record>> {
    seq(|q.packets|, k requires 0 <= k < |q.packets| =>
      Owed(q.packets[k], Posted(storage, k)))
  }

  function Owed(p: Packet, posted: bool): multiset<Record> {
    if posted then multiset{} else Undelivered(p)
  }

  function Total(shares: seq<multiset<Record>>): multiset<Record> {
    if shares == [] then multiset{} else Total(shares[..|shares| - 1]) + shares[|shares| - 1]
  }

  lemma {:induction false} TotalUpdate(shares: seq<multiset<Record>>, k: nat, m: multiset<Record>)
    requires k < |shares|
    ensures Total(shares[k := m]) + shares[k] == Total(shares) + m
  {
    var n := |shares| - 1;
    var shares' := shares[k := m];
    if k == n {
      assert shares'[..n] == shares[..n];
    } else {
      TotalUpdate(shares[..n], k, m);
      assert shares'[..n] == shares[..n][k := m];
      var front, front', last := Total(shares[..n]), Total(shares'[..n]), shares[n];
      forall r: Record ensures (front' + last + shares[k])[r] == (front + last + m)[r] {
        assert (front' + shares[k])[r] == (front + m)[r];
      }
    }
  }

  lemma {:induction false} TotalHas(shares: seq<multiset<Record>>, r: Record)
    ensures Total(shares)[r] > 0 <==> exists k :: 0 <= k < |shares| && r in shares[k]
    ensures Total(shares)[r] <= 1 ==> forall j, k :: 0 <= j < k < |shares| && r in shares[j] ==> r !in shares[k]
  {
    if shares != [] {
      var n := |shares| - 1;
      TotalHas(shares[..n], r);
      if Total(shares)[r] > 0 && r !in shares[n] {
        var k :| 0 <= k < n && r in shares[..n][k];
        assert r in shares[k];
      }
      forall j, k | 0 <= j < k < |shares| && r in shares[j] && Total(shares)[r] <= 1 ensures r !in shares[k] {
        assert shares[..n][j] == shares[j];
        if k < n { assert shares[..n][k] == shares[k]; }
      }
    }
  }

  // Conservation: nothing committed is lost, nothing is delivered twice or invented.
  ghost predicate Conserved(s: State) {
    multiset(s.committed) == multiset(s.accepted) + Total(Shares(s.pool, s.storage))
  }

  ghost predicate Serials(s: State) {
    && (forall i :: 0 <= i < |s.committed| ==>
          s.committed[i].plugin < |s.threads| && s.committed[i].serial < s.threads[s.committed[i].plugin].serial)
    && (forall i, j :: 0 <= i < j < |s.committed| ==> s.committed[i] != s.committed[j])
  }

  // Moving w into a share while adding w to what was committed keeps the balance.
  lemma Rebalance(owed: multiset<Record>, paid: multiset<Record>, total: multiset<Record>, total': multiset<Record>,
                  share: multiset<Record>, w: multiset<Record>)
    requires owed == paid + total && total' + share == total + (share + w)
    ensures owed + w == paid + total'
  {
    forall r: Record ensures (owed + w)[r] == (paid + total')[r] {
      assert (total' + share)[r] == (total + (share + w))[r];
    }
  }

  lemma EffectOwed(q: Pool, th: Thread, t: nat, e: Effect, posted: bool)
    requires Sound(q, th, e) && Booked(q, th, t, e) && Target(q, th) < |q.packets|
    requires posted ==> q.packets[Target(q, th)].state.Ready?
    ensures var k := Target(q, th); Owed(e.pool.packets[k], posted) == Owed(q.packets[k], posted) + multiset(e.written)
  {
    assert e.written == [] ==> multiset(e.written) == multiset{};
  }

  lemma EffectTotal(s: State, t: nat, e: Effect)
    requires StorageOk(s.pool, s.storage) && t < |s.threads|
    requires Sound(s.pool, s.threads[t], e) && Booked(s.pool, s.threads[t], t, e)
    ensures var k := Target(s.pool, s.threads[t]); var before, after := Shares(s.pool, s.storage), Shares(e.pool, s.storage);
            if k < |before| then |after| == |before| && after == before[k := before[k] + multiset(e.written)]
            else e.written == [] && (after == before || after == before + [multiset{}])
  {
    var q, th := s.pool, s.threads[t];
    var k := Target(q, th);
    var before, after := Shares(q, s.storage), Shares(e.pool, s.storage);
    assert Local(q, e.pool, k);
    forall j | 0 <= j < |before| && j != k ensures after[j] == before[j] {
      assert e.pool.packets[j] == q.packets[j];
    }
    if k < |before| { EffectOwed(q, th, t, e, Posted(s.storage, k)); }
  }

  lemma EffectConserved(s: State, t: nat, e: Effect)
    requires StorageOk(s.pool, s.storage) && Conserved(s) && t < |s.threads|
    requires Sound(s.pool, s.threads[t], e) && Booked(s.pool, s.threads[t], t, e)
    ensures Conserved(Effected(s, t, e))
  {
    EffectTotal(s, t, e);
    var k := Target(s.pool, s.threads[t]);
    var before, after := Shares(s.pool, s.storage), Shares(e.pool, s.storage);
    assert multiset(s.committed + e.written) == multiset(s.committed) + multiset(e.written);
    if k < |before| {
      TotalUpdate(before, k, before[k] + multiset(e.written));
      Rebalance(multiset(s.committed), multiset(s.accepted), Total(before), Total(after), before[k], multiset(e.written));
    } else if after != before {
      assert after[..|before|] == before;
    }
  }

  lemma EffectSerials(s: State, t: nat, e: Effect)
    requires Serials(s) && t < |s.threads|
    requires Booked(s.pool, s.threads[t], t, e)
    ensures Serials(Effected(s, t, e))
  {
  }

  // A storage instruction other than the delivery itself changes nobody's undelivered records.
  lemma StorageOwed(s: State, ok: bool, j: nat)
    requires StorageOk(s.pool, s.storage) && j < |s.pool.packets|
    requires !(s.storage.Sending? && ok && j == s.storage.id)
    ensures var s' := StorageStep(s, ok);
            && |s'.pool.packets| == |s.pool.packets|
            && Owed(s'.pool.packets[j], Posted(s'.storage, j)) == Owed(s.pool.packets[j], Posted(s.storage, j))
  {
  }

  lemma StorageTotal(s: State, ok: bool)
    requires StorageOk(s.pool, s.storage)
    ensures var s' := StorageStep(s, ok); var before, after := Shares(s.pool, s.storage), Shares(s'.pool, s'.storage);
            if s.storage.Sending? && ok then after == before[s.storage.id := multiset{}]
            else after == before
  {
    var s' := StorageStep(s, ok);
    var before, after := Shares(s.pool, s.storage), Shares(s'.pool, s'.storage);
    assert |after| == |before|;
    forall j | 0 <= j < |before| && !(s.storage.Sending? && ok && j == s.storage.id) ensures after[j] == before[j] {
      StorageOwed(s, ok, j);
    }
  }

  // Moving a share into the accepted log keeps the sum.
  lemma Delivery(paid: multiset<Record>, share: multiset<Record>, total: multiset<Record>, total': multiset<Record>)
    requires total' + share == total + multiset{}
    ensures (paid + share) + total' == paid + total
  {
    forall r: Record ensures ((paid + share) + total')[r] == (paid + total)[r] {
      assert (total' + share)[r] == (total + multiset{})[r];
    }
  }

  lemma StorageConserved(s: State, ok: bool)
    requires StorageOk(s.pool, s.storage) && Conserved(s)
    ensures Conserved(StorageStep(s, ok))
  {
    StorageTotal(s, ok);
    var s' := StorageStep(s, ok);
    var before, after := Shares(s.pool, s.storage), Shares(s'.pool, s'.storage);
    if s.storage.Sending? && ok {
      var id := s.storage.id;
      var records := s.pool.packets[id].records;
      TotalUpdate(before, id, multiset{});
      assert multiset(s.accepted + records) == multiset(s.accepted) + multiset(records);
      assert before[id] == multiset(records);
      Delivery(multiset(s.accepted), multiset(records), Total(before), Total(after));
    }
  }

  // ------------------------------------------------------------------ runs

  ghost predicate Inv(s: State) {
    Shape(s) && Senders(s) && Accounted(s) && Conserved(s) && Serials(s)
  }

  function Step(s: State, a: Action): State
    requires Shape(s)
  {
    match a
    case OfPlugin(t, c) => if t < |s.threads| then ThreadStep(s, t, c) else s
    case OfStorage(ok) => StorageStep(s, ok)
  }

  // Taking and releasing a sender lock for an out-of-band packet.
  lemma PostInv(s: State, t: nat, c: Choice)
    requires Inv(s) && t < |s.threads| && (s.threads[t].pc.PostLock? || s.threads[t].pc.PostHold?)
    requires ThreadOk(s.pool, s.threads[t])
    ensures Senders(ThreadStep(s, t, c)) && Accounted(ThreadStep(s, t, c))
    ensures Conserved(ThreadStep(s, t, c)) && Serials(ThreadStep(s, t, c))
  {
    var s' := ThreadStep(s, t, c);
    forall k | 0 <= k < |s.pool.packets| && Being(s.pool.packets[k]) ensures HasHolder(s'.threads, k) {
      HolderKept(s.threads, t, s'.threads[t], k);
    }
  }

  lemma EffectInv(s: State, t: nat, e: Effect)
    requires Inv(s) && t < |s.threads|
    requires Sound(s.pool, s.threads[t], e) && Booked(s.pool, s.threads[t], t, e) && !e.th.pc.PostHold?
    ensures Senders(Effected(s, t, e)) && Accounted(Effected(s, t, e))
    ensures Conserved(Effected(s, t, e)) && Serials(Effected(s, t, e))
  {
    EffectSenders(s, t, e);
    EffectAccounted(s, t, e);
    EffectConserved(s, t, e);
    EffectSerials(s, t, e);
  }

  lemma ThreadInv(s: State, t: nat, c: Choice)
    requires Inv(s) && t < |s.threads|
    ensures Inv(ThreadStep(s, t, c))
  {
    var q, th := s.pool, s.threads[t];
    ThreadShape(s, t, c);
    assert ThreadOk(q, th);
    if th.pc.PostLock? || th.pc.PostHold? {
      PostInv(s, t, c);
    } else {
      LocalStepSound(q, th, t, c);
      LocalStepBooked(q, th, t, c);
      EffectInv(s, t, LocalStep(q, th, t, c));
    }
  }

  lemma LocalStepBooked(q: Pool, th: Thread, t: nat, c: Choice)
    requires ThreadOk(q, th) && !th.pc.PostLock? && !th.pc.PostHold?
    ensures Booked(q, th, t, LocalStep(q, th, t, c)) && !LocalStep(q, th, t, c).th.pc.PostHold?
  {
    if InGather(th.pc) { GatherBooked(q, th, t, c); }
    else if !th.pc.Outside? { GetPacketBooked(q, th, t, c); }
  }

  lemma StorageInv(s: State, ok: bool)
    requires Inv(s)
    ensures Inv(StorageStep(s, ok))
  {
    StorageShape(s, ok);
    StorageSenders(s, ok);
    StorageConserved(s, ok);
    StorageAccounted(s, ok);
    assert StorageStep(s, ok).threads == s.threads && StorageStep(s, ok).committed == s.committed;
  }

  lemma StepInv(s: State, a: Action)
    requires Inv(s)
    ensures Inv(Step(s, a))
  {
    match a
    case OfPlugin(t, c) =>
      if t < |s.threads| { ThreadInv(s, t, c); }
    case OfStorage(ok) => StorageInv(s, ok);
  }

  /** The state after `actions`, oldest first, by n plugin threads and the storage thread. */
  function Run(n: nat, actions: seq<Action>): (s: State)
    ensures Inv(s) && |s.threads| == n
  {
    if actions == [] then Init(n)
    else
      var s := Run(n, actions[..|actions| - 1]);
      StepInv(s, actions[|actions| - 1]);
      Step(s, actions[|actions| - 1])
  }
}
