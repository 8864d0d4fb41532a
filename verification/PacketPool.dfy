/**
 The packet pool shared by the plugin threads and the storage thread, one
 machine instruction at a time.

 Plugin threads run `get_packet` and the packet part of `plugin_gather`, the
 storage thread runs `storage_main` and `post`; every interleaving of their loads,
 stores and compare-and-swaps is a run.  The push of `get_packet` is modelled as
 written: it locks the `spin` of a head read earlier, re-reads `packets`, and
 recycling a packet clears `spin` whoever holds it.
 */
module PacketPool {

  import opened PacketTypes

  datatype Ref = Null | At(id: nat)

  // A committed record, named by the plugin and the number of its commit.
  datatype Record = Record(plugin: nat, serial: nat)

  /** `rank` is a history variable: 0 while private, else the number of the
      publication (store to `packets`) that made the packet reachable. */
  datatype Packet = Packet(kind: PacketType, state: PacketState, spin: bool,
                           next: Ref, rank: nat, records: seq<Record>)

  // Every packet ever allocated, the list head `packets`, and the number of publications.
  datatype Pool = Pool(packets: seq<Packet>, head: Ref, pushed: nat)

  // The instruction a plugin thread executes next.
  datatype Pc =
    | Outside                        // outside plugin_gather and post
    | Scan(cursor: Ref)              // storage.c:54-55, compare-and-swap at the cursor
    | Advance(id: nat)               // storage.c:54, pkt = pkt->next
    | Recycle(id: nat)               // storage.c:56-61, claimed, fields not yet reset
    | Fresh(id: nat)                 // storage.c:67, packet allocated, not yet reachable
    | FirstCas(id: nat)              // storage.c:68
    | ReadLock(id: nat)              // storage.c:72
    | SpinLock(id: nat, lock: nat)   // storage.c:73
    | Link(id: nat, lock: nat)       // storage.c:74
    | Publish(id: nat, lock: nat)    // storage.c:75
    | Unlock(id: nat, lock: nat)     // storage.c:76
    | Gather(id: nat)                // plugin.c:167-204
    | Expire(id: nat)                // plugin.c:206-209, 212
    | Forget(id: nat)                // plugin.c:210, 213, `working` about to be cleared
    | PostLock(kind: PacketType)     // sender.c:64, for an out-of-band packet
    | PostHold(kind: PacketType)     // sender.c:65-70

  datatype Thread = Thread(pc: Pc, working: Ref, serial: nat)

  datatype StoragePc =
    | Resting
    | Visit(cursor: Ref)                            // storage.c:84-86
    | Fetch(id: nat)                                // packet.c:31
    | Fetched(id: nat)                              // packet.c:32-34
    | SendLock(id: nat)                             // sender.c:64
    | Sending(id: nat, taken: PacketType)           // sender.c:65-69
    | Release(id: nat, taken: PacketType, ok: bool) // sender.c:70-72
    | MarkDone(id: nat)                             // storage.c:100
    | Skip(id: nat)                                 // storage.c:84, pkt = pkt->next

  /** `busy` holds the sender types whose spin is 1.  `committed` and `accepted` are
      history: the records committed so far and those in packets whose post returned 0. */
  datatype State = State(pool: Pool, threads: seq<Thread>, storage: StoragePc, busy: set<PacketType>,
                         committed: seq<Record>, accepted: seq<Record>)

  // What the environment decides: whether to gather or post, the outcome of a
  // gather, expiry, the type asked of get_packet; and the server's answer.
  datatype Choice = EnterGather | EnterPost(kind: PacketType) | Flag(yes: bool) | Typed(asked: PacketType)
  datatype Action = OfPlugin(t: nat, choice: Choice) | OfStorage(ok: bool)

  function Init(n: nat): State {
    State(Pool([], Null, 0), seq(n, i => Thread(Outside, Null, 0)), Resting, {}, [], [])
  }

  // ------------------------------------------------- what threads may assume

  predicate InPool(q: Pool, r: Ref) {
    r.At? ==> r.id < |q.packets| && q.packets[r.id].rank > 0
  }

  // States in which a packet belongs to a plugin thread.
  predicate Being(p: Packet) { p.state.Empty? || p.state.Begin? || p.state.Wrote? }

  predicate WorkingOk(q: Pool, r: Ref) {
    r.At? ==> InPool(q, r) && Being(q.packets[r.id]) && (q.packets[r.id].state.Wrote? <==> q.packets[r.id].records != [])
  }

  predicate PrivateOk(q: Pool, id: nat) {
    id < |q.packets| && q.packets[id].rank == 0 && q.packets[id].state.Empty? && q.packets[id].records == []
  }

  predicate ThreadOk(q: Pool, th: Thread) {
    match th.pc
    case Outside => WorkingOk(q, th.working)
    case PostLock(_) => WorkingOk(q, th.working)
    case PostHold(_) => WorkingOk(q, th.working)
    case Scan(cursor) => th.working.Null? && InPool(q, cursor)
    case Advance(id) => th.working.Null? && InPool(q, At(id))
    case Recycle(id) => th.working.Null? && InPool(q, At(id)) && q.packets[id].state.Empty?
    case Fresh(id) => th.working.Null? && PrivateOk(q, id) && q.packets[id].next.Null?
    case FirstCas(id) => th.working.Null? && PrivateOk(q, id) && q.packets[id].next.Null?
    case ReadLock(id) => th.working.Null? && PrivateOk(q, id) && q.head.At?
    case SpinLock(id, lock) => th.working.Null? && PrivateOk(q, id) && InPool(q, At(lock)) && q.head.At?
    case Link(id, lock) => th.working.Null? && PrivateOk(q, id) && InPool(q, At(lock)) && q.head.At?
    case Publish(id, lock) => th.working.Null? && PrivateOk(q, id) && InPool(q, At(lock)) && q.packets[id].next.At?
    case Unlock(id, lock) =>
      && th.working.Null? && InPool(q, At(id)) && InPool(q, At(lock))
      && q.packets[id].state.Empty? && q.packets[id].records == []
    case Gather(id) => th.working == At(id) && WorkingOk(q, th.working)
    case Expire(id) => th.working == At(id) && WorkingOk(q, th.working) && !q.packets[id].state.Empty?
    case Forget(id) => th.working == At(id) && id < |q.packets|
  }

  /** The packet a plugin thread may still write. */
  function Held(th: Thread): Ref {
    match th.pc
    case Outside => th.working
    case PostLock(_) => th.working
    case PostHold(_) => th.working
    case Scan(_) => Null
    case Advance(_) => Null
    case Forget(_) => Null
    case _ => At(th.pc.id)
  }

  predicate Waiting(q: Pool, id: nat) {
    id < |q.packets| && q.packets[id].state.Ready?
  }

  predicate StorageOk(q: Pool, storage: StoragePc) {
    match storage
    case Resting => true
    case Visit(cursor) => InPool(q, cursor)
    case Fetch(id) => Waiting(q, id)
    case Fetched(id) => Waiting(q, id)
    case SendLock(id) => Waiting(q, id)
    case Sending(id, taken) => Waiting(q, id) && q.packets[id].kind == taken
    case Release(id, taken, _) => Waiting(q, id) && q.packets[id].kind == taken
    case MarkDone(id) => Waiting(q, id)
    case Skip(id) => InPool(q, At(id))
  }

  // ---------------------------------------------------------------- steps

  function Put(q: Pool, id: nat, p: Packet): Pool
    requires id < |q.packets|
  {
    q.(packets := q.packets[id := p])
  }

  // The store to `packets` that makes packet `id` the head.
  function Published(q: Pool, id: nat): Pool
    requires id < |q.packets|
  {
    Pool(q.packets[id := q.packets[id].(rank := q.pushed + 1)], At(id), q.pushed + 1)
  }

  // A thread after one of its instructions, the pool, and the record it committed, if any.
  datatype Effect = Effect(th: Thread, pool: Pool, written: seq<Record>)

  // get_packet returned: plugin.c:165
  function Take(th: Thread, id: nat): Thread { th.(pc := Gather(id), working := At(id)) }

  // The packet type get_packet was asked for.
  function Asked(c: Choice): PacketType { if c.Typed? then c.asked else Metric }

  /** get_packet, one instruction at a time. */
  function GetPacketStep(q: Pool, th: Thread, c: Choice): Effect
    requires ThreadOk(q, th) && !InGather(th.pc) && !th.pc.Outside?
  {
    match th.pc
    case Scan(cursor) =>
      if cursor.Null? then
        Effect(th.(pc := Fresh(|q.packets|)), q.(packets := q.packets + [Packet(Asked(c), Empty, false, Null, 0, [])]), [])
      else if q.packets[cursor.id].state.Done? then
        Effect(th.(pc := Recycle(cursor.id)), Put(q, cursor.id, q.packets[cursor.id].(state := Empty)), [])
      else Effect(th.(pc := Advance(cursor.id)), q, [])
    case Advance(id) => Effect(th.(pc := Scan(q.packets[id].next)), q, [])
    case Recycle(id) =>
      Effect(Take(th, id), Put(q, id, q.packets[id].(kind := Asked(c), spin := false, records := [])), [])
    case Fresh(id) => Effect(th.(pc := if q.head.Null? then FirstCas(id) else ReadLock(id)), q, [])
    case FirstCas(id) =>
      if q.head.Null? then Effect(Take(th, id), Published(q, id), []) else Effect(th.(pc := Fresh(id)), q, [])
    case ReadLock(id) => Effect(th.(pc := SpinLock(id, q.head.id)), q, [])
    case SpinLock(id, lock) =>
      if q.packets[lock].spin then Effect(th, q, [])
      else Effect(th.(pc := Link(id, lock)), Put(q, lock, q.packets[lock].(spin := true)), [])
    case Link(id, lock) => Effect(th.(pc := Publish(id, lock)), Put(q, id, q.packets[id].(next := q.head)), [])
    case Publish(id, lock) => Effect(th.(pc := Unlock(id, lock)), Published(q, id), [])
    case Unlock(id, lock) => Effect(Take(th, id), Put(q, lock, q.packets[lock].(spin := false)), [])
    case _ => Effect(th, q, [])
  }

  predicate InGather(pc: Pc) { pc.Gather? || pc.Expire? || pc.Forget? }

  /** The packet part of plugin_gather by thread `t`. */
  function GatherStep(q: Pool, th: Thread, t: nat, c: Choice): Effect
    requires ThreadOk(q, th) && InGather(th.pc)
  {
    var p := q.packets[th.pc.id];
    match th.pc
    case Gather(id) =>
      if p.state.Empty? then Effect(th, Put(q, id, p.(state := Begin)), [])
      else if c == Flag(true) then
        var r := Record(t, th.serial);
        Effect(th.(pc := Expire(id), serial := th.serial + 1),
               Put(q, id, p.(state := Wrote, records := p.records + [r])), [r])
      else Effect(th.(pc := Expire(id)), q, [])
    case Expire(id) =>
      if c != Flag(true) then Effect(th.(pc := Outside), q, [])
      else Effect(th.(pc := Forget(id)), Put(q, id, p.(state := if p.state.Wrote? then Ready else Done)), [])
    case Forget(id) => Effect(th.(pc := Outside, working := Null), q, [])
  }

  /** Entering plugin_gather, or entering post with an out-of-band packet. */
  function EnterStep(q: Pool, th: Thread, c: Choice): Thread
    requires th.pc.Outside?
  {
    match c
    case EnterGather => th.(pc := if th.working.Null? then Scan(q.head) else Gather(th.working.id))
    case EnterPost(kind) => th.(pc := PostLock(kind))
    case _ => th
  }

  // A thread that neither holds nor takes a sender lock.
  function Effected(s: State, t: nat, e: Effect): State
    requires t < |s.threads|
  {
    s.(threads := s.threads[t := e.th], pool := e.pool, committed := s.committed + e.written)
  }

  /** One instruction of plugin thread `t`. */
  function ThreadStep(s: State, t: nat, c: Choice): State
    requires t < |s.threads| && ThreadOk(s.pool, s.threads[t])
  {
    var th := s.threads[t];
    match th.pc
    case PostLock(kind) =>
      if kind in s.busy then s
      else s.(threads := s.threads[t := th.(pc := PostHold(kind))], busy := s.busy + {kind})
    case PostHold(kind) => s.(threads := s.threads[t := th.(pc := Outside)], busy := s.busy - {kind})
    case _ => Effected(s, t, LocalStep(s.pool, th, t, c))
  }

  function LocalStep(q: Pool, th: Thread, t: nat, c: Choice): Effect
    requires ThreadOk(q, th)
  {
    if th.pc.Outside? then Effect(EnterStep(q, th, c), q, [])
    else if InGather(th.pc) then GatherStep(q, th, t, c)
    else GetPacketStep(q, th, c)
  }

  /** One instruction of the storage thread. */
  function StorageStep(s: State, ok: bool): State
    requires StorageOk(s.pool, s.storage)
  {
    var q := s.pool;
    match s.storage
    case Resting => s.(storage := Visit(q.head))
    case Visit(cursor) =>
      if cursor.Null? then s.(storage := Resting)
      else s.(storage := if q.packets[cursor.id].state.Ready? then Fetch(cursor.id) else Skip(cursor.id))
    case Fetch(id) =>
      if q.packets[id].spin then s
      else s.(storage := Fetched(id), pool := Put(q, id, q.packets[id].(spin := true)))
    case Fetched(id) =>
      s.(storage := if q.packets[id].state.Ready? then SendLock(id) else Resting,
         pool := Put(q, id, q.packets[id].(spin := false)))
    case SendLock(id) =>
      if q.packets[id].kind in s.busy then s
      else s.(storage := Sending(id, q.packets[id].kind), busy := s.busy + {q.packets[id].kind})
    case Sending(id, taken) =>
      s.(storage := Release(id, taken, ok),
         accepted := if ok then s.accepted + q.packets[id].records else s.accepted)
    case Release(id, taken, accepted) =>
      s.(storage := if accepted then MarkDone(id) else Resting, busy := s.busy - {q.packets[id].kind})
    case MarkDone(id) => s.(storage := Skip(id), pool := Put(q, id, q.packets[id].(state := Done)))
    case Skip(id) => s.(storage := Visit(q.packets[id].next))
  }

  // ----------------------------------------------------------- invariants

  predicate PacketOk(q: Pool, p: Packet) {
    && p.rank <= q.pushed
    && InPool(q, p.next)
    && (p.rank > 0 && p.next.At? ==> q.packets[p.next.id].rank < p.rank)
    && (p.state.Ready? ==> p.rank > 0 && p.records != [])
  }

  predicate HeadOk(q: Pool) {
    && InPool(q, q.head)
    && (q.head.Null? <==> q.pushed == 0)
    && (q.head.At? ==> q.packets[q.head.id].rank == q.pushed)
  }

  // Links lead to published packets of strictly smaller rank.
  ghost predicate Chained(q: Pool) {
    HeadOk(q) && forall k {:trigger PacketOk(q, q.packets[k])} :: 0 <= k < |q.packets| ==> PacketOk(q, q.packets[k])
  }

  ghost predicate RanksDiffer(q: Pool) {
    forall j, k :: 0 <= j < k < |q.packets| && q.packets[j].rank == q.packets[k].rank ==> q.packets[j].rank == 0
  }

  ghost predicate Linked(q: Pool) { Chained(q) && RanksDiffer(q) }

  // Threads respect the pool and no two hold the same packet.
  ghost predicate Owned(q: Pool, threads: seq<Thread>) {
    && (forall t :: 0 <= t < |threads| ==> ThreadOk(q, threads[t]))
    && (forall t, u :: 0 <= t < u < |threads| && Held(threads[t]).At? ==> Held(threads[t]) != Held(threads[u]))
  }

  ghost predicate Shape(s: State) {
    Linked(s.pool) && Owned(s.pool, s.threads) && StorageOk(s.pool, s.storage)
  }

  // --------------------------------------- a step changes one packet only

  // q' differs from q in packet k only, which may be new; published links are frozen.
  ghost predicate Local(q: Pool, q': Pool, k: nat) {
    && |q.packets| <= |q'.packets| <= |q.packets| + 1
    && (|q'.packets| == |q.packets| + 1 ==> k == |q.packets| && q'.packets[k].rank == 0)
    && (forall j :: 0 <= j < |q.packets| && j != k ==> q'.packets[j] == q.packets[j])
    && (k < |q.packets| && q.packets[k].rank > 0 ==>
          q'.packets[k].rank == q.packets[k].rank && q'.packets[k].next == q.packets[k].next)
    && (k < |q.packets| ==> q'.packets[k].rank == q.packets[k].rank || q'.packets[k].rank == q'.pushed > q.pushed)
    && (q.head.At? ==> q'.head.At?)
    && q.pushed <= q'.pushed
  }

  predicate SameButSpin(p: Packet, p': Packet) { p' == p.(spin := p'.spin) }

  lemma OtherThreadOk(q: Pool, q': Pool, k: nat, th: Thread)
    requires ThreadOk(q, th) && Local(q, q', k)
    requires k < |q.packets| && Held(th) == At(k) ==> SameButSpin(q.packets[k], q'.packets[k])
    ensures ThreadOk(q', th)
  {
  }

  // Packet k is not held by any thread but t.
  ghost predicate NoneElse(threads: seq<Thread>, t: nat, k: nat) {
    forall u :: 0 <= u < |threads| && u != t ==> Held(threads[u]) != At(k)
  }

  lemma HeldAlone(q: Pool, threads: seq<Thread>, t: nat, k: nat)
    requires Owned(q, threads)
    requires (t < |threads| && Held(threads[t]) == At(k)) || k >= |q.packets| || !Being(q.packets[k])
    ensures NoneElse(threads, t, k)
  {
    forall u | 0 <= u < |threads| && u != t ensures Held(threads[u]) != At(k) {
      assert ThreadOk(q, threads[u]);
      if t < |threads| && Held(threads[t]) == At(k) { assert u < t || t < u; }
    }
  }

  lemma OwnedKept(q: Pool, q': Pool, threads: seq<Thread>, t: nat, th: Thread, k: nat)
    requires Owned(q, threads) && t < |threads| && Local(q, q', k)
    requires k < |q.packets| ==> NoneElse(threads, t, k) || SameButSpin(q.packets[k], q'.packets[k])
    requires ThreadOk(q', th)
    requires Held(th).At? ==> NoneElse(threads, t, Held(th).id)
    ensures Owned(q', threads[t := th])
  {
    forall u | 0 <= u < |threads| && u != t ensures ThreadOk(q', threads[u]) {
      OtherThreadOk(q, q', k, threads[u]);
    }
  }

  lemma LinkedKept(q: Pool, q': Pool, k: nat)
    requires Linked(q) && Local(q, q', k) && HeadOk(q')
    requires k < |q'.packets| ==> PacketOk(q', q'.packets[k])
    ensures Linked(q')
  {
    forall j | 0 <= j < |q'.packets| ensures PacketOk(q', q'.packets[j]) {
      if j != k { assert PacketOk(q, q.packets[j]); }
    }
    forall i, j | 0 <= i < j < |q'.packets| && q'.packets[i].rank == q'.packets[j].rank
      ensures q'.packets[i].rank == 0
    {
      if i < |q.packets| { assert PacketOk(q, q.packets[i]); }
      if j < |q.packets| { assert PacketOk(q, q.packets[j]); }
    }
  }

  // The packet a thread's next instruction writes; an unallocated one if none.
  function Target(q: Pool, th: Thread): nat {
    match th.pc
    case Scan(cursor) => if cursor.At? then cursor.id else |q.packets|
    case SpinLock(_, lock) => lock
    case Unlock(_, lock) => lock
    case Recycle(id) => id
    case FirstCas(id) => id
    case Link(id, _) => id
    case Publish(id, _) => id
    case Gather(id) => id
    case Expire(id) => id
    case _ => |q.packets|
  }

  // What one thread's instruction does to the pool and to itself.
  ghost predicate Sound(q: Pool, th: Thread, e: Effect) {
    var k := Target(q, th);
    && Local(q, e.pool, k) && HeadOk(e.pool)
    && (k < |e.pool.packets| ==> PacketOk(e.pool, e.pool.packets[k]))
    && ThreadOk(e.pool, e.th)
    && (Held(e.th) == Held(th) || Held(e.th).Null? || (Held(e.th) == At(k) && (k >= |q.packets| || !Being(q.packets[k]))))
    && (k < |q.packets| ==> Held(th) == At(k) || !Being(q.packets[k]) || SameButSpin(q.packets[k], e.pool.packets[k]))
    && (k < |q.packets| && q.packets[k].state.Ready? ==> SameButSpin(q.packets[k], e.pool.packets[k]))
    // what the thread lets go of, and what comes into its charge
    && (Held(e.th) != Held(th) && Held(th).At? ==> Held(th) == At(k) && k < |q.packets| && !Being(e.pool.packets[k]))
    && (k < |e.pool.packets| && Being(e.pool.packets[k]) && (k >= |q.packets| || !Being(q.packets[k])) ==> Held(e.th) == At(k))
  }

  function Undelivered(p: Packet): multiset<Record> {
    if p.state.Wrote? || p.state.Ready? then multiset(p.records) else multiset{}
  }

  // A thread's instruction adds what it commits to its own packet's records and changes no other record.
  ghost predicate Booked(q: Pool, th: Thread, t: nat, e: Effect) {
    var k := Target(q, th);
    && |q.packets| <= |e.pool.packets| && !e.th.pc.PostHold?
    && (|e.pool.packets| > |q.packets| ==> Undelivered(e.pool.packets[|q.packets|]) == multiset{})
    && (if e.written == [] then
          && e.th.serial == th.serial
          && (k < |q.packets| ==> Undelivered(e.pool.packets[k]) == Undelivered(q.packets[k]))
        else
          && e.th.serial == th.serial + 1 && e.written == [Record(t, th.serial)]
          && k < |q.packets| && !q.packets[k].state.Ready?
          && Undelivered(e.pool.packets[k]) == Undelivered(q.packets[k]) + multiset(e.written))
  }

  lemma GetPacketBooked(q: Pool, th: Thread, t: nat, c: Choice)
    requires ThreadOk(q, th) && !InGather(th.pc) && !th.pc.Outside? && !th.pc.PostHold?
    ensures Booked(q, th, t, GetPacketStep(q, th, c))
  {
  }

  lemma GatherBooked(q: Pool, th: Thread, t: nat, c: Choice)
    requires ThreadOk(q, th) && InGather(th.pc)
    ensures Booked(q, th, t, GatherStep(q, th, t, c))
  {
  }

  lemma ScanSound(q: Pool, th: Thread, t: nat, c: Choice)
    requires Chained(q) && ThreadOk(q, th) && (th.pc.Scan? || th.pc.Advance?)
    ensures Sound(q, th, LocalStep(q, th, t, c))
  {
    var k := Target(q, th);
    if k < |q.packets| { assert PacketOk(q, q.packets[k]); }
    if th.pc.Advance? { assert PacketOk(q, q.packets[th.pc.id]); }
  }

  lemma RecycleSound(q: Pool, th: Thread, t: nat, c: Choice)
    requires Chained(q) && ThreadOk(q, th) && th.pc.Recycle?
    ensures Sound(q, th, LocalStep(q, th, t, c))
  {
    assert PacketOk(q, q.packets[th.pc.id]);
  }

  lemma FreshSound(q: Pool, th: Thread, t: nat, c: Choice)
    requires Chained(q) && ThreadOk(q, th) && (th.pc.Fresh? || th.pc.ReadLock?)
    ensures Sound(q, th, LocalStep(q, th, t, c))
  {
  }

  lemma LinkSound(q: Pool, th: Thread, t: nat, c: Choice)
    requires Chained(q) && ThreadOk(q, th) && th.pc.Link?
    ensures Sound(q, th, LocalStep(q, th, t, c))
  {
    assert PacketOk(q, q.packets[th.pc.id]);
  }

  lemma SpinLockSound(q: Pool, th: Thread, t: nat, c: Choice)
    requires Chained(q) && ThreadOk(q, th) && th.pc.SpinLock?
    ensures Sound(q, th, LocalStep(q, th, t, c))
  {
    assert PacketOk(q, q.packets[th.pc.lock]);
  }

  lemma UnlockSound(q: Pool, th: Thread, t: nat, c: Choice)
    requires Chained(q) && ThreadOk(q, th) && th.pc.Unlock?
    ensures Sound(q, th, LocalStep(q, th, t, c))
  {
    assert PacketOk(q, q.packets[th.pc.lock]);
  }

  lemma PublishSound(q: Pool, th: Thread, t: nat, c: Choice)
    requires Chained(q) && ThreadOk(q, th) && (th.pc.FirstCas? || th.pc.Publish?)
    ensures Sound(q, th, LocalStep(q, th, t, c))
  {
    var p := q.packets[th.pc.id];
    assert PacketOk(q, p);
    if p.next.At? { assert PacketOk(q, q.packets[p.next.id]); }
  }

  lemma EnterSound(q: Pool, th: Thread, t: nat, c: Choice)
    requires Chained(q) && ThreadOk(q, th) && (th.pc.Forget? || th.pc.Outside?)
    ensures Sound(q, th, LocalStep(q, th, t, c))
  {
  }

  lemma GatherSound(q: Pool, th: Thread, t: nat, c: Choice)
    requires Chained(q) && ThreadOk(q, th) && th.pc.Gather?
    ensures Sound(q, th, LocalStep(q, th, t, c))
  {
    assert PacketOk(q, q.packets[th.pc.id]);
  }

  lemma ExpireSound(q: Pool, th: Thread, t: nat, c: Choice)
    requires Chained(q) && ThreadOk(q, th) && th.pc.Expire?
    ensures Sound(q, th, LocalStep(q, th, t, c))
  {
    assert PacketOk(q, q.packets[th.pc.id]);
  }

  lemma LocalStepSound(q: Pool, th: Thread, t: nat, c: Choice)
    requires Chained(q) && ThreadOk(q, th) && !th.pc.PostLock? && !th.pc.PostHold?
    ensures Sound(q, th, LocalStep(q, th, t, c))
  {
    match th.pc
    case Scan(_) => ScanSound(q, th, t, c);
    case Advance(_) => ScanSound(q, th, t, c);
    case Recycle(_) => RecycleSound(q, th, t, c);
    case Fresh(_) => FreshSound(q, th, t, c);
    case ReadLock(_) => FreshSound(q, th, t, c);
    case SpinLock(_, _) => SpinLockSound(q, th, t, c);
    case Link(_, _) => LinkSound(q, th, t, c);
    case Unlock(_, _) => UnlockSound(q, th, t, c);
    case FirstCas(_) => PublishSound(q, th, t, c);
    case Publish(_, _) => PublishSound(q, th, t, c);
    case Gather(_) => GatherSound(q, th, t, c);
    case Expire(_) => ExpireSound(q, th, t, c);
    case _ => EnterSound(q, th, t, c);
  }

  lemma EffectShape(s: State, t: nat, e: Effect)
    requires Shape(s) && t < |s.threads|
    requires Sound(s.pool, s.threads[t], e)
    ensures Linked(e.pool) && Owned(e.pool, s.threads[t := e.th]) && StorageOk(e.pool, s.storage)
  {
    var q, th := s.pool, s.threads[t];
    var k := Target(q, th);
    if Held(th).At? { HeldAlone(q, s.threads, t, Held(th).id); }
    if k >= |q.packets| || !Being(q.packets[k]) { HeldAlone(q, s.threads, t, k); }
    OwnedKept(q, e.pool, s.threads, t, e.th, k);
    LinkedKept(q, e.pool, k);
  }

  lemma PostShape(s: State, t: nat, c: Choice)
    requires Shape(s) && t < |s.threads| && (s.threads[t].pc.PostLock? || s.threads[t].pc.PostHold?)
    requires ThreadOk(s.pool, s.threads[t])
    ensures Shape(ThreadStep(s, t, c))
  {
    var th, th' := s.threads[t], ThreadStep(s, t, c).threads[t];
    assert ThreadOk(s.pool, th') && Held(th') == Held(th);
    if Held(th).At? { HeldAlone(s.pool, s.threads, t, Held(th).id); }
    OwnedKept(s.pool, s.pool, s.threads, t, th', |s.pool.packets|);
  }

  lemma ThreadShape(s: State, t: nat, c: Choice)
    requires Shape(s) && t < |s.threads|
    ensures Shape(ThreadStep(s, t, c))
  {
    var q, th := s.pool, s.threads[t];
    assert ThreadOk(q, th);
    if th.pc.PostLock? || th.pc.PostHold? {
      PostShape(s, t, c);
    } else {
      LocalStepSound(q, th, t, c);
      EffectShape(s, t, LocalStep(q, th, t, c));
    }
  }

  // Storage writes a READY packet: its spin, or its state to DONE.
  lemma ReadyWritten(q: Pool, threads: seq<Thread>, id: nat, p: Packet)
    requires Linked(q) && Owned(q, threads) && Waiting(q, id)
    requires SameButSpin(q.packets[id], p) || p == q.packets[id].(state := Done)
    ensures Linked(Put(q, id, p)) && Owned(Put(q, id, p), threads)
  {
    var q' := Put(q, id, p);
    assert PacketOk(q, q.packets[id]);
    HeldAlone(q, threads, |threads|, id);
    forall u | 0 <= u < |threads| ensures ThreadOk(q', threads[u]) {
      OtherThreadOk(q, q', id, threads[u]);
    }
    LinkedKept(q, q', id);
  }

  lemma StorageShape(s: State, ok: bool)
    requires Shape(s)
    ensures Shape(StorageStep(s, ok))
  {
    var q, s' := s.pool, StorageStep(s, ok);
    if s.storage.Fetch? || s.storage.Fetched? || s.storage.MarkDone? {
      assert PacketOk(q, q.packets[s.storage.id]);
      if s' != s { ReadyWritten(q, s.threads, s.storage.id, s'.pool.packets[s.storage.id]); }
    } else if s.storage.Skip? {
      assert PacketOk(q, q.packets[s.storage.id]);
    }
  }
}
