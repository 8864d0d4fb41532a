/**
 What a pass of the storage thread delivers: in every interleaving whatever was
 READY on the list when the pass began, up to a failing post; and, when nobody
 else acts, exactly that, in list order.
 */
module PoolPass {
  import opened PacketTypes
  import opened PacketPool
  import opened PoolRuns
  import opened PoolList
  import opened PoolTheorems

  // -------------------------------------------------- in every interleaving

  // Where the list that the pass has still to see begins.
  function Cursor(q: Pool, storage: StoragePc): Ref
    requires StorageOk(q, storage)
  {
    match storage
    case Resting => Null
    case Visit(cursor) => cursor
    case Skip(id) => q.packets[id].next
    case _ => At(storage.id)
  }

  lemma CursorInPool(q: Pool, storage: StoragePc)
    requires Chained(q) && StorageOk(q, storage)
    ensures InPool(q, Cursor(q, storage))
  {
    if !storage.Resting? && !storage.Visit? { assert PacketOk(q, q.packets[storage.id]); }
  }

  predicate AllIn(records: seq<Record>, log: seq<Record>) { forall i :: 0 <= i < |records| ==> records[i] in log }

  // Packet k, READY with these records, is still ahead of the pass.
  ghost predicate Awaits(s: State, k: nat, records: seq<Record>)
    requires Shape(s)
  {
    CursorInPool(s.pool, s.storage);
    && k < |s.pool.packets| && s.pool.packets[k].state.Ready? && s.pool.packets[k].records == records
    && k in Chain(s.pool, Cursor(s.pool, s.storage))
  }

  // The records have been accepted, or the pass has still to come to their packet.
  ghost predicate Settled(s: State, k: nat, records: seq<Record>)
    requires Shape(s)
  {
    AllIn(records, s.accepted) || Awaits(s, k, records)
  }

  // A packet whose post returned 0 has its records in the log.
  ghost predicate PostedIsAccepted(s: State) {
    forall k :: 0 <= k < |s.pool.packets| && Posted(s.storage, k) ==> AllIn(s.pool.packets[k].records, s.accepted)
  }

  // READY packets, the log and storage are as they were, spins aside.
  ghost predicate LeavesReady(s: State, s': State) {
    && s'.storage == s.storage && s'.accepted == s.accepted && |s.pool.packets| <= |s'.pool.packets|
    && forall k :: 0 <= k < |s.pool.packets| && s.pool.packets[k].state.Ready? ==>
         SameButSpin(s.pool.packets[k], s'.pool.packets[k])
  }

  lemma ThreadLeavesReady(s: State, t: nat, c: Choice)
    requires Shape(s) && t < |s.threads|
    ensures LeavesReady(s, Step(s, OfPlugin(t, c)))
  {
    var th := s.threads[t];
    assert ThreadOk(s.pool, th);
    if th.pc.PostLock? || th.pc.PostHold? {
      PostLeavesReady(s, t, c);
    } else {
      LocalStepSound(s.pool, th, t, c);
      EffectLeavesReady(s, t, LocalStep(s.pool, th, t, c));
    }
  }

  lemma PostLeavesReady(s: State, t: nat, c: Choice)
    requires t < |s.threads| && ThreadOk(s.pool, s.threads[t]) && (s.threads[t].pc.PostLock? || s.threads[t].pc.PostHold?)
    ensures LeavesReady(s, ThreadStep(s, t, c))
  {
  }

  lemma EffectLeavesReady(s: State, t: nat, e: Effect)
    requires t < |s.threads| && Sound(s.pool, s.threads[t], e)
    ensures LeavesReady(s, Effected(s, t, e))
  {
  }

  lemma StepPostedIsAccepted(s: State, a: Action)
    requires Shape(s) && PostedIsAccepted(s)
    ensures PostedIsAccepted(Step(s, a))
  {
    match a
    case OfPlugin(t, c) => if t < |s.threads| { ThreadLeavesReady(s, t, c); }
    case OfStorage(ok) =>
  }

  lemma {:induction false} RunPostedIsAccepted(n: nat, actions: seq<Action>)
    ensures PostedIsAccepted(Run(n, actions))
  {
    if actions != [] {
      RunPostedIsAccepted(n, actions[..|actions| - 1]);
      StepPostedIsAccepted(Run(n, actions[..|actions| - 1]), actions[|actions| - 1]);
    }
  }

  lemma ThreadSettled(s: State, t: nat, c: Choice, k: nat, records: seq<Record>)
    requires Inv(s) && t < |s.threads| && Settled(s, k, records)
    ensures Shape(Step(s, OfPlugin(t, c))) && Settled(Step(s, OfPlugin(t, c)), k, records)
  {
    var a := OfPlugin(t, c);
    StepInv(s, a);
    StepFrozen(s, a);
    ThreadLeavesReady(s, t, c);
    if Awaits(s, k, records) {
      CursorInPool(s.pool, s.storage);
      CursorKept(s, t, c);
      ChainFrozen(s.pool, Step(s, a).pool, Cursor(s.pool, s.storage));
    }
  }

  lemma CursorKept(s: State, t: nat, c: Choice)
    requires Shape(s) && t < |s.threads| && Shape(Step(s, OfPlugin(t, c)))
    ensures var s' := Step(s, OfPlugin(t, c)); s'.storage == s.storage && Cursor(s'.pool, s'.storage) == Cursor(s.pool, s.storage)
  {
    ThreadLeavesReady(s, t, c);
    StepFrozen(s, OfPlugin(t, c));
  }

  // Storage's own instruction, unless it gives the pass up.
  lemma StorageSettled(s: State, ok: bool, k: nat, records: seq<Record>)
    requires Inv(s) && PostedIsAccepted(s) && Settled(s, k, records)
    requires !(s.storage.Release? && !s.storage.ok)
    ensures Shape(Step(s, OfStorage(ok))) && Settled(Step(s, OfStorage(ok)), k, records)
  {
    StepInv(s, OfStorage(ok));
    if Awaits(s, k, records) && !AllIn(records, StorageStep(s, ok).accepted) { StorageAwaits(s, ok, k, records); }
  }

  lemma StorageAwaits(s: State, ok: bool, k: nat, records: seq<Record>)
    requires Shape(s) && PostedIsAccepted(s) && Awaits(s, k, records) && Shape(StorageStep(s, ok))
    requires !(s.storage.Release? && !s.storage.ok) && !AllIn(records, StorageStep(s, ok).accepted)
    ensures Awaits(StorageStep(s, ok), k, records)
  {
    var s' := StorageStep(s, ok);
    StorageLeavesReady(s, ok, k);
    StepFrozen(s, OfStorage(ok));
    CursorInPool(s.pool, s.storage);
    CursorInPool(s'.pool, s'.storage);
    CursorMoves(s, ok);
    StillAhead(s.pool, s'.pool, Cursor(s.pool, s.storage), Cursor(s'.pool, s'.storage), k);
  }

  // A packet ahead of the cursor is ahead of it after the cursor has passed another one.
  lemma StillAhead(q: Pool, q': Pool, from: Ref, to: Ref, k: nat)
    requires Chained(q) && Chained(q') && Frozen(q, q') && InPool(q, from) && InPool(q', to) && k in Chain(q, from)
    requires to == from || (from.At? && k != from.id && to == q'.packets[from.id].next)
    ensures k in Chain(q', to)
  {
    ChainFrozen(q, q', from);
    if to != from { assert Chain(q', from) == [from.id] + Chain(q', to); }
  }

  lemma StorageLeavesReady(s: State, ok: bool, k: nat)
    requires StorageOk(s.pool, s.storage) && k < |s.pool.packets| && s.pool.packets[k].state.Ready?
    ensures var s' := StorageStep(s, ok);
            && |s'.pool.packets| == |s.pool.packets| && s.accepted <= s'.accepted
            && (s.storage == MarkDone(k) || SameButSpin(s.pool.packets[k], s'.pool.packets[k]))
  {
  }

  // The cursor passes a packet only if it was not READY or has been accepted.
  lemma CursorMoves(s: State, ok: bool)
    requires Shape(s) && PostedIsAccepted(s) && Shape(StorageStep(s, ok)) && !s.storage.Resting?
    requires !(s.storage.Release? && !s.storage.ok)
    ensures var s' := StorageStep(s, ok);
            var from, to := Cursor(s.pool, s.storage), Cursor(s'.pool, s'.storage);
            || to == from
            || (from.At? && from.id < |s'.pool.packets| && to == s'.pool.packets[from.id].next
                && (!s.pool.packets[from.id].state.Ready? || AllIn(s.pool.packets[from.id].records, s'.accepted)))
  {
  }

  // ------------------------------------------------------- a pass in a run

  // Storage begins a pass with the first of the actions and is in it after each of them.
  ghost predicate InPass(n: nat, actions: seq<Action>, more: seq<Action>)
    decreases |more|
  {
    && more != [] && !Run(n, actions + more).storage.Resting?
    && if |more| == 1 then more[0].OfStorage? && Run(n, actions).storage.Resting? else InPass(n, actions, more[..|more| - 1])
  }

  // Packet k is READY and on the list.
  ghost predicate ReadyOnList(q: Pool, k: nat)
    requires Chained(q)
  {
    k < |q.packets| && q.packets[k].state.Ready? && k in Chain(q, q.head)
  }

  lemma PassBegins(s: State, ok: bool, k: nat)
    requires Inv(s) && s.storage.Resting? && ReadyOnList(s.pool, k)
    ensures Shape(Step(s, OfStorage(ok))) && Settled(Step(s, OfStorage(ok)), k, s.pool.packets[k].records)
  {
    StepInv(s, OfStorage(ok));
  }

  // A step of a pass that does not end it.
  lemma PassStep(s: State, a: Action, k: nat, records: seq<Record>)
    requires Inv(s) && PostedIsAccepted(s) && Settled(s, k, records) && !s.storage.Resting? && !Step(s, a).storage.Resting?
    ensures Shape(Step(s, a)) && Settled(Step(s, a), k, records)
  {
    match a
    case OfPlugin(t, c) => if t < |s.threads| { ThreadSettled(s, t, c, k, records); }
    case OfStorage(ok) => StorageSettled(s, ok, k, records);
  }

  /** During a pass, whatever the plugins do meanwhile: the records of each packet that was READY on the list when
      the pass began have been accepted, or the packet is still READY and ahead of the cursor. */
  lemma {:induction false} PassSoFar(n: nat, actions: seq<Action>, more: seq<Action>, k: nat)
    requires InPass(n, actions, more) && ReadyOnList(Run(n, actions).pool, k)
    ensures Settled(Run(n, actions + more), k, Run(n, actions).pool.packets[k].records)
    decreases |more|
  {
    var records := Run(n, actions).pool.packets[k].records;
    if |more| == 1 {
      assert more == [more[0]];
      PassFirst(n, actions, more[0], k);
    } else {
      var before, a := more[..|more| - 1], more[|more| - 1];
      PassSoFar(n, actions, before, k);
      WithLast(actions, more);
      PassLonger(n, actions + before, a, actions + more, k, records);
    }
  }

  lemma WithLast(actions: seq<Action>, more: seq<Action>)
    requires more != []
    ensures actions + more == actions + more[..|more| - 1] + [more[|more| - 1]]
  {
  }

  lemma PassFirst(n: nat, actions: seq<Action>, a: Action, k: nat)
    requires a.OfStorage? && Run(n, actions).storage.Resting? && ReadyOnList(Run(n, actions).pool, k)
    ensures Settled(Run(n, actions + [a]), k, Run(n, actions).pool.packets[k].records)
  {
    RunStep(n, actions, a);
    PassBegins(Run(n, actions), a.ok, k);
  }

  lemma PassLonger(n: nat, actions: seq<Action>, a: Action, actions': seq<Action>, k: nat, records: seq<Record>)
    requires actions' == actions + [a] && Settled(Run(n, actions), k, records)
    requires !Run(n, actions).storage.Resting? && !Run(n, actions').storage.Resting?
    ensures Settled(Run(n, actions'), k, records)
  {
    RunStep(n, actions, a);
    RunPostedIsAccepted(n, actions);
    PassStep(Run(n, actions), a, k, records);
  }

  // A pass ends at the end of the list or at a post that failed.
  lemma PassEnds(s: State, a: Action)
    requires Shape(s) && !s.storage.Resting? && Step(s, a).storage.Resting?
    ensures a.OfStorage? && (s.storage == Visit(Null) || (s.storage.Release? && !s.storage.ok))
  {
    if a.OfPlugin? && a.t < |s.threads| { ThreadLeavesReady(s, a.t, a.choice); }
  }

  /** A pass delivers: in every interleaving, once it has come to the end of the list the records of every packet
      that was READY on the list when it began have been accepted.  It ends earlier only at a packet whose post
      failed; then the packets it did not deliver are READY still and on the list from that packet on. */
  lemma PassDelivers(n: nat, actions: seq<Action>, more: seq<Action>, a: Action, k: nat)
    requires InPass(n, actions, more) && Run(n, actions + more + [a]).storage.Resting?
    requires ReadyOnList(Run(n, actions).pool, k)
    ensures var s := Run(n, actions + more); var records := Run(n, actions).pool.packets[k].records;
            || (s.storage == Visit(Null) && AllIn(records, s.accepted))
            || (s.storage.Release? && !s.storage.ok && InPool(s.pool, At(s.storage.id)) &&
                (AllIn(records, s.accepted) || (k in Chain(s.pool, At(s.storage.id)) && s.pool.packets[k].state.Ready?)))
  {
    PassSoFar(n, actions, more, k);
    RunStep(n, actions + more, a);
    var s := Run(n, actions + more);
    PassEnds(s, a);
    CursorInPool(s.pool, s.storage);
  }

  // --------------------------------------------------------- a pass alone

  function Act(s: State, ok: bool): State { if StorageOk(s.pool, s.storage) then StorageStep(s, ok) else s }

  // The answers to successive instructions; only one that sends looks at its own.
  datatype Script = End | Then(ok: bool, rest: Script)

  function Acts(s: State, script: Script): State
    decreases script
  {
    match script
    case End => s
    case Then(ok, rest) => Acts(Act(s, ok), rest)
  }

  // Only storage acted since.
  ghost predicate ByStorage(actions: seq<Action>, actions': seq<Action>) {
    actions <= actions' && forall i :: |actions| <= i < |actions'| ==> actions'[i].OfStorage?
  }

  lemma OneAct(n: nat, actions: seq<Action>, s: State, ok: bool)
    requires Run(n, actions) == s
    ensures Run(n, actions + [OfStorage(ok)]) == Act(s, ok)
  {
    RunStep(n, actions, OfStorage(ok));
  }

  lemma ByStorageLonger(actions: seq<Action>, ok: bool, actions': seq<Action>)
    requires ByStorage(actions + [OfStorage(ok)], actions')
    ensures ByStorage(actions, actions')
  {
    assert actions'[|actions|] == (actions + [OfStorage(ok)])[|actions|];
  }

  // From s, reached by `actions`, the instructions of a script.
  lemma {:induction false} RunActs(n: nat, actions: seq<Action>, s: State, script: Script) returns (actions': seq<Action>)
    requires Run(n, actions) == s
    ensures ByStorage(actions, actions') && Run(n, actions') == Acts(s, script)
    decreases script
  {
    match script
    case End => actions' := actions;
    case Then(ok, rest) =>
      OneAct(n, actions, s, ok);
      actions' := RunActs(n, actions + [OfStorage(ok)], Act(s, ok), rest);
      ByStorageLonger(actions, ok, actions');
  }

  function Twice(ok: bool): Script { Then(ok, Then(ok, End)) }
  function Thrice(ok: bool): Script { Then(ok, Twice(ok)) }

  // Nobody holds the packet's spin or uses its sender.
  predicate Unhindered(s: State, p: Packet) { !p.spin && p.kind !in s.busy }

  lemma Fetches(s: State, id: nat, ok: bool)
    requires s.storage == Visit(At(id)) && id < |s.pool.packets| && s.pool.packets[id].rank > 0
    requires s.pool.packets[id].state.Ready? && !s.pool.packets[id].spin
    ensures Acts(s, Thrice(ok)) == s.(storage := SendLock(id))
  {
    var s1 := StorageStep(s, ok);
    var s2 := StorageStep(s1, ok);
    var s3 := StorageStep(s2, ok);
    assert s3.pool.packets == s.pool.packets;
    assert s3 == s.(storage := SendLock(id));
    assert Acts(s2, Then(ok, End)) == s3;
  }

  lemma Sends(s: State, id: nat, ok: bool)
    requires s.storage == SendLock(id) && id < |s.pool.packets|
    requires s.pool.packets[id].state.Ready? && s.pool.packets[id].kind !in s.busy
    ensures Acts(s, Thrice(ok)) == if ok then s.(storage := MarkDone(id), accepted := s.accepted + s.pool.packets[id].records)
                              else s.(storage := Resting)
  {
    var s1 := StorageStep(s, ok);
    var s2 := StorageStep(s1, ok);
    var s3 := StorageStep(s2, ok);
    assert s3.busy == s.busy;
    assert Acts(s2, Then(ok, End)) == s3;
  }

  lemma Marks(s: State, id: nat, ok: bool)
    requires s.storage == MarkDone(id) && id < |s.pool.packets| && s.pool.packets[id].state.Ready? && s.pool.packets[id].rank > 0
    ensures var p := s.pool.packets[id];
            Acts(s, Twice(ok)) == s.(storage := Visit(p.next), pool := Put(s.pool, id, p.(state := Done)))
  {
    var s1 := StorageStep(s, ok);
    assert Acts(s1, Then(ok, End)) == StorageStep(s1, ok);
  }

  // A packet that is not READY is passed as it is.
  lemma PassesOne(s: State, id: nat, ok: bool)
    requires s.storage == Visit(At(id)) && id < |s.pool.packets| && s.pool.packets[id].rank > 0
    requires !s.pool.packets[id].state.Ready?
    ensures Acts(s, Twice(ok)) == s.(storage := Visit(s.pool.packets[id].next))
  {
    assert StorageStep(s, ok) == s.(storage := Skip(id));
    assert Acts(StorageStep(s, ok), Then(ok, End)) == StorageStep(StorageStep(s, ok), ok);
  }

  // The pass stops at ids[f], the first READY packet whose post is refused, or at the end of the list.
  ghost predicate StopsAt(q: Pool, ids: seq<nat>, answer: nat -> bool, f: nat) {
    && f <= |ids| && (forall i :: 0 <= i < |ids| ==> ids[i] < |q.packets|)
    && (forall i :: 0 <= i < f ==> q.packets[ids[i]].state.Ready? ==> answer(ids[i]))
    && (f < |ids| ==> q.packets[ids[f]].state.Ready? && !answer(ids[f]))
  }

  // The records of the READY packets among ids, in that order.
  function RecordsOf(q: Pool, ids: seq<nat>): seq<Record>
    requires forall i :: 0 <= i < |ids| ==> ids[i] < |q.packets|
  {
    if ids == [] then []
    else (if q.packets[ids[0]].state.Ready? then q.packets[ids[0]].records else []) + RecordsOf(q, ids[1..])
  }

  // The READY packets among ids have become DONE; nothing else has changed.
  function Delivered(q: Pool, ids: seq<nat>): Pool {
    q.(packets := seq(|q.packets|, k requires 0 <= k < |q.packets| =>
         if k in ids && q.packets[k].state.Ready? then q.packets[k].(state := Done) else q.packets[k]))
  }

  ghost predicate ClearFrom(s: State, r: Ref)
    requires Chained(s.pool) && InPool(s.pool, r)
  {
    forall k :: k in Chain(s.pool, r) && s.pool.packets[k].state.Ready? ==> Unhindered(s, s.pool.packets[k])
  }

  lemma ByStorageAgain(actions: seq<Action>, actions': seq<Action>, actions'': seq<Action>)
    requires ByStorage(actions, actions') && ByStorage(actions', actions'')
    ensures ByStorage(actions, actions'')
  {
    forall i | |actions| <= i < |actions''| ensures actions''[i].OfStorage? {
      if i < |actions'| { assert actions''[i] == actions'[i]; }
    }
  }

  // One packet of the list: passed, posted and passed, or refused.
  function AfterOne(s: State, id: nat, ok: bool): State
    requires id < |s.pool.packets|
  {
    var p := s.pool.packets[id];
    if !p.state.Ready? then s.(storage := Visit(p.next))
    else if ok then s.(storage := Visit(p.next), pool := Put(s.pool, id, p.(state := Done)), accepted := s.accepted + p.records)
    else s.(storage := Resting)
  }

  lemma DealsWithOne(n: nat, actions: seq<Action>, s: State, id: nat, ok: bool)
    returns (actions': seq<Action>, s': State)
    requires Run(n, actions) == s && s.storage == Visit(At(id)) && id < |s.pool.packets| && s.pool.packets[id].rank > 0
    requires s.pool.packets[id].state.Ready? ==> Unhindered(s, s.pool.packets[id])
    ensures ByStorage(actions, actions') && Run(n, actions') == s' && s' == AfterOne(s, id, ok)
  {
    s' := AfterOne(s, id, ok);
    if !s.pool.packets[id].state.Ready? {
      PassesOne(s, id, ok);
      actions' := RunActs(n, actions, s, Twice(ok));
    } else {
      var s1 := s.(storage := SendLock(id));
      Fetches(s, id, ok);
      actions' := RunActs(n, actions, s, Thrice(ok));
      actions' := SendsOne(n, actions, actions', s1, id, ok);
    }
  }

  lemma SendsOne(n: nat, start: seq<Action>, actions: seq<Action>, s: State, id: nat, ok: bool) returns (actions': seq<Action>)
    requires ByStorage(start, actions) && Run(n, actions) == s && s.storage == SendLock(id)
    requires id < |s.pool.packets| && s.pool.packets[id].state.Ready? && s.pool.packets[id].rank > 0
    requires s.pool.packets[id].kind !in s.busy
    ensures ByStorage(start, actions') && Run(n, actions') == AfterOne(s, id, ok)
  {
    Sends(s, id, ok);
    actions' := RunActs(n, actions, s, Thrice(ok));
    ByStorageAgain(start, actions, actions');
    if ok {
      var s2 := s.(storage := MarkDone(id), accepted := s.accepted + s.pool.packets[id].records);
      Marks(s2, id, ok);
      var before := actions';
      actions' := RunActs(n, before, s2, Twice(ok));
      ByStorageAgain(start, before, actions');
    }
  }

  // The pool after a READY packet of the list was delivered or another was passed.
  function PassedPool(q: Pool, id: nat): Pool
    requires id < |q.packets|
  {
    if q.packets[id].state.Ready? then Put(q, id, q.packets[id].(state := Done)) else q
  }

  lemma {:induction false} RecordsKept(q: Pool, id: nat, ids: seq<nat>)
    requires id < |q.packets| && id !in ids && forall i :: 0 <= i < |ids| ==> ids[i] < |q.packets|
    ensures RecordsOf(PassedPool(q, id), ids) == RecordsOf(q, ids)
  {
    if ids != [] { RecordsKept(q, id, ids[1..]); }
  }

  // What a pass over the rest of the list does, seen from the whole list.
  lemma WholeList(q: Pool, id: nat, rest: seq<nat>, answer: nat -> bool, f: nat)
    requires id < |q.packets| && id !in rest && (q.packets[id].state.Ready? ==> answer(id))
    requires StopsAt(PassedPool(q, id), rest, answer, f)
    ensures StopsAt(q, [id] + rest, answer, f + 1)
    ensures Delivered(PassedPool(q, id), rest[..f]) == Delivered(q, ([id] + rest)[..f + 1])
    ensures RecordsOf(q, ([id] + rest)[..f + 1]) ==
            (if q.packets[id].state.Ready? then q.packets[id].records else []) + RecordsOf(PassedPool(q, id), rest[..f])
  {
    var ids := [id] + rest;
    assert ids[..f + 1] == [id] + rest[..f] && ids[..f + 1][1..] == rest[..f];
    StopsLater(q, id, rest, answer, f);
    assert forall i :: 0 <= i < f ==> rest[..f][i] == rest[i];
    RecordsKept(q, id, rest[..f]);
    DeliveredMore(q, id, rest[..f]);
  }

  lemma DeliveredMore(q: Pool, id: nat, ids: seq<nat>)
    requires id < |q.packets| && id !in ids
    ensures Delivered(PassedPool(q, id), ids) == Delivered(q, [id] + ids)
  {
    assert Delivered(PassedPool(q, id), ids).packets == Delivered(q, [id] + ids).packets;
  }

  lemma StopsLater(q: Pool, id: nat, rest: seq<nat>, answer: nat -> bool, f: nat)
    requires id < |q.packets| && id !in rest && (q.packets[id].state.Ready? ==> answer(id))
    requires StopsAt(PassedPool(q, id), rest, answer, f)
    ensures StopsAt(q, [id] + rest, answer, f + 1)
  {
    var ids, q1 := [id] + rest, PassedPool(q, id);
    forall i | 0 <= i < |ids| ensures ids[i] < |q.packets| && (i > 0 ==> q1.packets[ids[i]] == q.packets[ids[i]]) {
      if i > 0 { assert ids[i] == rest[i - 1]; }
    }
    forall i | 0 <= i < f + 1 && q.packets[ids[i]].state.Ready? ensures answer(ids[i]) {
      if i > 0 { assert ids[i] == rest[i - 1]; }
    }
  }

  // The rest of the list is what it was, and as clear.
  lemma RestOfList(s: State, id: nat, s': State)
    requires Chained(s.pool) && InPool(s.pool, At(id)) && ClearFrom(s, At(id))
    requires s'.pool == PassedPool(s.pool, id) && s'.busy == s.busy && Chained(s'.pool)
    ensures var next := s.pool.packets[id].next;
            && InPool(s.pool, next) && InPool(s'.pool, next) && RankOf(s'.pool, next) < RankOf(s.pool, At(id))
            && Chain(s.pool, At(id)) == [id] + Chain(s'.pool, next) && id !in Chain(s'.pool, next) && ClearFrom(s', next)
  {
    RestOfChain(s.pool, id, s'.pool);
    var next := s.pool.packets[id].next;
    forall k | k in Chain(s'.pool, next) && s'.pool.packets[k].state.Ready? ensures Unhindered(s', s'.pool.packets[k]) {
      assert k in Chain(s.pool, At(id)) && s.pool.packets[k] == s'.pool.packets[k];
    }
  }

  lemma RestOfChain(q: Pool, id: nat, q': Pool)
    requires Chained(q) && InPool(q, At(id)) && q' == PassedPool(q, id) && Chained(q')
    ensures var next := q.packets[id].next;
            && InPool(q, next) && InPool(q', next) && RankOf(q', next) < RankOf(q, At(id))
            && Chain(q, At(id)) == [id] + Chain(q', next) && id !in Chain(q', next)
  {
    assert PacketOk(q, q.packets[id]);
    ChainFrozen(q, q', q.packets[id].next);
  }

  ghost predicate PassedTo(s: State, ids: seq<nat>, answer: nat -> bool, f: nat, s': State) {
    && StopsAt(s.pool, ids, answer, f)
    && s' == s.(storage := Resting, pool := Delivered(s.pool, ids[..f]), accepted := s.accepted + RecordsOf(s.pool, ids[..f]))
  }

  lemma EndOfList(s: State, answer: nat -> bool)
    requires s.storage == Visit(Null)
    ensures Acts(s, Then(true, End)) == s.(storage := Resting) && PassedTo(s, [], answer, 0, s.(storage := Resting))
  {
    assert Delivered(s.pool, []).packets == s.pool.packets;
    assert s.accepted + [] == s.accepted;
  }

  lemma Refused(s: State, ids: seq<nat>, answer: nat -> bool)
    requires ids != [] && (forall i :: 0 <= i < |ids| ==> ids[i] < |s.pool.packets|)
    requires s.pool.packets[ids[0]].state.Ready? && !answer(ids[0])
    ensures PassedTo(s, ids, answer, 0, s.(storage := Resting))
  {
    assert Delivered(s.pool, []).packets == s.pool.packets;
    assert s.accepted + [] == s.accepted;
  }

  // A pass over the rest of the list completes one over the whole.
  lemma Joined(s: State, id: nat, s1: State, answer: nat -> bool, f: nat, end: State)
    requires Chained(s.pool) && InPool(s.pool, At(id)) && ClearFrom(s, At(id)) && Chained(s1.pool)
    requires s1 == AfterOne(s, id, true) && (s.pool.packets[id].state.Ready? ==> answer(id))
    requires InPool(s1.pool, s.pool.packets[id].next)
    requires PassedTo(s1, Chain(s1.pool, s.pool.packets[id].next), answer, f, end)
    ensures PassedTo(s, Chain(s.pool, At(id)), answer, f + 1, end)
  {
    RestOfList(s, id, s1);
    JoinedRest(s, id, Chain(s1.pool, s.pool.packets[id].next), answer, f, end);
  }

  lemma JoinedRest(s: State, id: nat, rest: seq<nat>, answer: nat -> bool, f: nat, end: State)
    requires id < |s.pool.packets| && id !in rest && (s.pool.packets[id].state.Ready? ==> answer(id))
    requires PassedTo(AfterOne(s, id, true), rest, answer, f, end)
    ensures PassedTo(s, [id] + rest, answer, f + 1, end)
  {
    WholeList(s.pool, id, rest, answer, f);
  }

  // The first packet of the list either ends the pass or leaves a shorter one.
  lemma FirstOfList(s: State, id: nat, s1: State, answer: nat -> bool)
    requires Chained(s.pool) && InPool(s.pool, At(id)) && ClearFrom(s, At(id)) && Chained(s1.pool)
    requires s1 == AfterOne(s, id, answer(id))
    ensures var next := s.pool.packets[id].next;
            if s.pool.packets[id].state.Ready? && !answer(id) then PassedTo(s, Chain(s.pool, At(id)), answer, 0, s1)
            else && s1 == AfterOne(s, id, true) && InPool(s1.pool, next) && ClearFrom(s1, next)
                 && RankOf(s1.pool, next) < RankOf(s.pool, At(id))
  {
    if s.pool.packets[id].state.Ready? && !answer(id) {
      Refused(s, Chain(s.pool, At(id)), answer);
    } else {
      RestOfList(s, id, s1);
    }
  }

  lemma PassNothing(n: nat, actions: seq<Action>, s: State, answer: nat -> bool) returns (actions': seq<Action>, end: State)
    requires Run(n, actions) == s && s.storage == Visit(Null)
    ensures ByStorage(actions, actions') && Run(n, actions') == end && PassedTo(s, [], answer, 0, end)
  {
    EndOfList(s, answer);
    actions' := RunActs(n, actions, s, Then(true, End));
    end := s.(storage := Resting);
  }

  lemma PassFirstOf(n: nat, actions: seq<Action>, s: State, id: nat, answer: nat -> bool) returns (actions': seq<Action>, s1: State)
    requires Run(n, actions) == s && s.storage == Visit(At(id)) && ClearFrom(s, At(id))
    ensures ByStorage(actions, actions') && Run(n, actions') == s1 && Chained(s1.pool) && s1 == AfterOne(s, id, answer(id))
    ensures var next := s.pool.packets[id].next;
            if s1.storage.Resting? then PassedTo(s, Chain(s.pool, At(id)), answer, 0, s1)
            else && s1 == AfterOne(s, id, true) && s1.storage == Visit(next) && (s.pool.packets[id].state.Ready? ==> answer(id))
                 && InPool(s1.pool, next) && ClearFrom(s1, next) && RankOf(s1.pool, next) < RankOf(s.pool, At(id))
  {
    actions', s1 := DealsWithOne(n, actions, s, id, answer(id));
    FirstOfList(s, id, s1, answer);
  }

  lemma {:induction false} PassOn(n: nat, actions: seq<Action>, s: State, r: Ref, answer: nat -> bool)
    returns (actions': seq<Action>, f: nat, end: State)
    requires Run(n, actions) == s && s.storage == Visit(r) && ClearFrom(s, r)
    ensures ByStorage(actions, actions') && Run(n, actions') == end && PassedTo(s, Chain(s.pool, r), answer, f, end)
    decreases RankOf(s.pool, r)
  {
    f := 0;
    if r.Null? {
      actions', end := PassNothing(n, actions, s, answer);
    } else {
      var before, s1 := PassFirstOf(n, actions, s, r.id, answer);
      if s1.storage.Resting? {
        actions', end := before, s1;
      } else {
        actions', f, end := PassOn(n, before, s1, s.pool.packets[r.id].next, answer);
        Joined(s, r.id, s1, answer, f, end);
        f := f + 1;
        ByStorageAgain(actions, before, actions');
      }
    }
  }

  /** Left alone, a pass that finds no lock taken runs to its end: it stops at the first READY packet whose post is
      refused, or nowhere; the READY packets before that are DONE and their records accepted in list order;
      nothing else has changed. */
  lemma PassAlone(n: nat, actions: seq<Action>, answer: nat -> bool) returns (actions': seq<Action>, f: nat)
    requires var s := Run(n, actions); s.storage.Resting? && ClearFrom(s, s.pool.head)
    ensures ByStorage(actions, actions')
    ensures var s := Run(n, actions); PassedTo(s, Chain(s.pool, s.pool.head), answer, f, Run(n, actions'))
  {
    var s := Run(n, actions);
    var s1 := s.(storage := Visit(s.pool.head));
    assert Acts(s, Then(true, End)) == s1;
    var before := RunActs(n, actions, s, Then(true, End));
    var end;
    actions', f, end := PassOn(n, before, s1, s.pool.head, answer);
    ByStorageAgain(actions, before, actions');
  }
}
