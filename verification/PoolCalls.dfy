/**
 What a plugin thread's calls do to the pool when nobody else acts: get_packet hands
 out the first DONE packet of the list or a new one at its head, plugin_gather
 commits and closes, post takes a sender's lock and gives it back.
 */
module PoolCalls {
  import opened PacketTypes
  import opened PacketPool
  import opened PoolRuns
  import opened PoolList
  import opened PoolTheorems

  // ------------------------------------------------------ one thread acting

  predicate Posting(pc: Pc) { pc.PostLock? || pc.PostHold? }

  // One more instruction of thread t, which has done e so far.
  function Goes(e: Effect, t: nat, c: Choice): Effect {
    if ThreadOk(e.pool, e.th) && !Posting(e.th.pc) then
      var next := LocalStep(e.pool, e.th, t, c);
      next.(written := e.written + next.written)
    else e
  }

  // The choices of successive instructions.
  datatype Script = End | Then(c: Choice, rest: Script)

  function GoesOn(e: Effect, t: nat, script: Script): Effect
    decreases script
  {
    match script
    case End => e
    case Then(c, rest) => GoesOn(Goes(e, t, c), t, rest)
  }

  predicate NoPost(script: Script) { script.Then? ==> !script.c.EnterPost? && NoPost(script.rest) }

  // Only thread t acted since.
  ghost predicate ByThread(t: nat, actions: seq<Action>, actions': seq<Action>) {
    actions <= actions' && forall i :: |actions| <= i < |actions'| ==> actions'[i].OfPlugin? && actions'[i].t == t
  }

  lemma ByThreadAgain(t: nat, actions: seq<Action>, actions': seq<Action>, actions'': seq<Action>)
    requires ByThread(t, actions, actions') && ByThread(t, actions', actions'')
    ensures ByThread(t, actions, actions'')
  {
    forall i | |actions| <= i < |actions''| ensures actions''[i].OfPlugin? && actions''[i].t == t {
      if i < |actions'| { assert actions''[i] == actions'[i]; }
    }
  }

  lemma EffectedTwice(s: State, t: nat, e: Effect, next: Effect)
    requires t < |s.threads|
    ensures Effected(Effected(s, t, e), t, next) == Effected(s, t, next.(written := e.written + next.written))
  {
    assert s.threads[t := e.th][t := next.th] == s.threads[t := next.th];
    assert s.committed + e.written + next.written == s.committed + (e.written + next.written);
  }

  // One instruction of thread t, and one for each of its choices.
  function Moved(s: State, t: nat, c: Choice): State {
    if t < |s.threads| && ThreadOk(s.pool, s.threads[t]) then ThreadStep(s, t, c) else s
  }

  function Play(s: State, t: nat, script: Script): State
    decreases script
  {
    match script
    case End => s
    case Then(c, rest) => Play(Moved(s, t, c), t, rest)
  }

  lemma OneMove(n: nat, actions: seq<Action>, s: State, t: nat, c: Choice) returns (actions': seq<Action>)
    requires Run(n, actions) == s && t < n
    ensures ByThread(t, actions, actions') && Run(n, actions') == Moved(s, t, c)
  {
    actions' := actions + [OfPlugin(t, c)];
    RunStep(n, actions, OfPlugin(t, c));
    assert ThreadOk(s.pool, s.threads[t]);
  }

  lemma {:induction false} RunPlays(n: nat, actions: seq<Action>, s: State, t: nat, script: Script) returns (actions': seq<Action>)
    requires Run(n, actions) == s && t < n
    ensures ByThread(t, actions, actions') && Run(n, actions') == Play(s, t, script)
    decreases script
  {
    match script
    case End => actions' := actions;
    case Then(c, rest) =>
      var before := OneMove(n, actions, s, t, c);
      actions' := RunPlays(n, before, Moved(s, t, c), t, rest);
      ByThreadAgain(t, actions, before, actions');
  }

  lemma MovedEffect(s: State, t: nat, e: Effect, c: Choice)
    requires t < |s.threads| && !Posting(e.th.pc) && !c.EnterPost?
    ensures Moved(Effected(s, t, e), t, c) == Effected(s, t, Goes(e, t, c)) && !Posting(Goes(e, t, c).th.pc)
  {
    assert Effected(s, t, e).threads[t] == e.th;
    if ThreadOk(e.pool, e.th) { EffectedTwice(s, t, e, LocalStep(e.pool, e.th, t, c)); }
  }

  lemma {:induction false} PlayEffect(s: State, t: nat, e: Effect, script: Script)
    requires t < |s.threads| && !Posting(e.th.pc) && NoPost(script)
    ensures Play(Effected(s, t, e), t, script) == Effected(s, t, GoesOn(e, t, script))
    decreases script
  {
    match script
    case End =>
    case Then(c, rest) =>
      MovedEffect(s, t, e, c);
      PlayEffect(s, t, Goes(e, t, c), rest);
  }

  lemma RunGoes(n: nat, actions: seq<Action>, s: State, t: nat, e: Effect, script: Script) returns (actions': seq<Action>)
    requires t < n && t < |s.threads| && Run(n, actions) == Effected(s, t, e) && !Posting(e.th.pc) && NoPost(script)
    ensures ByThread(t, actions, actions') && Run(n, actions') == Effected(s, t, GoesOn(e, t, script))
  {
    PlayEffect(s, t, e, script);
    actions' := RunPlays(n, actions, Effected(s, t, e), t, script);
  }

  // ----------------------------------------------------------- get_packet

  // The first DONE packet of the list, or its length.
  ghost predicate FirstDone(q: Pool, ids: seq<nat>, f: nat) {
    && f <= |ids| && (forall i :: 0 <= i < |ids| ==> ids[i] < |q.packets|)
    && (forall i :: 0 <= i < f ==> !q.packets[ids[i]].state.Done?) && (f < |ids| ==> q.packets[ids[f]].state.Done?)
  }

  // The pool once packet `id` has been handed out: recycled as it stood in the list, or new and in front of it.
  function HandedOut(q: Pool, kind: PacketType, id: nat): Pool {
    if id < |q.packets| then Put(q, id, q.packets[id].(kind := kind, state := Empty, spin := false, records := []))
    else Pool(q.packets + [Packet(kind, Empty, false, q.head, q.pushed + 1, [])], At(|q.packets|), q.pushed + 1)
  }

  lemma Passes(e: Effect, t: nat, c: Choice, id: nat) returns (script: Script)
    requires e.th.pc == Scan(At(id)) && e.th.working.Null? && InPool(e.pool, At(id)) && !e.pool.packets[id].state.Done?
    requires !c.EnterPost?
    ensures NoPost(script) && GoesOn(e, t, script) == e.(th := e.th.(pc := Scan(e.pool.packets[id].next)))
  {
    script := Then(c, Then(c, End));
    var e1 := Goes(e, t, c);
    assert e.written + [] == e.written;
    assert e1 == e.(th := e.th.(pc := Advance(id)));
    assert Goes(e1, t, c) == e.(th := e.th.(pc := Scan(e.pool.packets[id].next)));
    assert GoesOn(e1, t, Then(c, End)) == Goes(e1, t, c);
  }

  lemma Recycles(e: Effect, t: nat, kind: PacketType, id: nat) returns (script: Script)
    requires e.th.pc == Scan(At(id)) && e.th.working.Null? && InPool(e.pool, At(id)) && e.pool.packets[id].state.Done?
    ensures NoPost(script) && GoesOn(e, t, script) == e.(th := Take(e.th, id), pool := HandedOut(e.pool, kind, id))
  {
    var c := Typed(kind);
    script := Then(c, Then(c, End));
    var e1 := Goes(e, t, c);
    var e2 := Goes(e1, t, c);
    assert e2.pool.packets == HandedOut(e.pool, kind, id).packets;
  }

  lemma GrowsFirst(e: Effect, t: nat, kind: PacketType) returns (script: Script)
    requires e.th.pc == Scan(Null) && e.th.working.Null? && e.pool.head.Null?
    ensures NoPost(script)
    ensures GoesOn(e, t, script) == e.(th := Take(e.th, |e.pool.packets|), pool := HandedOut(e.pool, kind, |e.pool.packets|))
  {
    var c, id := Typed(kind), |e.pool.packets|;
    script := Then(c, Then(c, Then(c, End)));
    var e1 := Goes(e, t, c);
    var e2 := Goes(e1, t, c);
    var e3 := Goes(e2, t, c);
    assert e3.pool.packets == HandedOut(e.pool, kind, id).packets;
  }

  // A new packet, its thread about to lock the head's spin.
  function Locking(e: Effect, kind: PacketType): Effect
    requires e.pool.head.At?
  {
    e.(th := e.th.(pc := SpinLock(|e.pool.packets|, e.pool.head.id)),
       pool := e.pool.(packets := e.pool.packets + [Packet(kind, Empty, false, Null, 0, [])]))
  }

  lemma Allocates(e: Effect, t: nat, kind: PacketType) returns (script: Script)
    requires e.th.pc == Scan(Null) && e.th.working.Null? && e.pool.head.At? && InPool(e.pool, e.pool.head)
    ensures NoPost(script) && GoesOn(e, t, script) == Locking(e, kind)
  {
    var c := Typed(kind);
    script := Then(c, Then(c, Then(c, End)));
    var e1 := Goes(e, t, c);
    var e2 := Goes(e1, t, c);
    assert Goes(e2, t, c) == Locking(e, kind);
  }

  // Lock, link, publish, unlock.
  lemma Pushes(e: Effect, t: nat, kind: PacketType) returns (script: Script)
    requires e.th.working.Null? && e.pool.head.At? && InPool(e.pool, e.pool.head) && !e.pool.packets[e.pool.head.id].spin
    ensures var id := |e.pool.packets|;
            && NoPost(script)
            && GoesOn(Locking(e, kind), t, script) == e.(th := Take(e.th, id), pool := HandedOut(e.pool, kind, id))
  {
    var c, id, lock := Typed(kind), |e.pool.packets|, e.pool.head.id;
    script := Then(c, Then(c, Then(c, Then(c, End))));
    var e0 := Locking(e, kind);
    var e1 := Goes(e0, t, c);
    assert e1.th.pc == Link(id, lock) && e1.pool == Put(e0.pool, lock, e0.pool.packets[lock].(spin := true));
    var e2 := Goes(e1, t, c);
    assert e2.th.pc == Publish(id, lock);
    var e3 := Goes(e2, t, c);
    assert e3.th.pc == Unlock(id, lock);
    var e4 := Goes(e3, t, c);
    assert e4.pool.packets == HandedOut(e.pool, kind, id).packets;
    assert GoesOn(e2, t, Then(c, Then(c, End))) == e4;
  }

  // The scan goes on to the first DONE packet or to the end of the list.
  lemma {:induction false} ScanOn(n: nat, actions: seq<Action>, s: State, t: nat, e: Effect, r: Ref)
    returns (actions': seq<Action>, f: nat)
    requires t < n && t < |s.threads| && Run(n, actions) == Effected(s, t, e)
    requires Chained(e.pool) && InPool(e.pool, r) && e.th.pc == Scan(r) && e.th.working.Null?
    ensures ByThread(t, actions, actions') && FirstDone(e.pool, Chain(e.pool, r), f)
    ensures Run(n, actions') == Effected(s, t, Found(e, Chain(e.pool, r), f))
    decreases RankOf(e.pool, r)
  {
    f, actions' := 0, actions;
    if r.At? && !e.pool.packets[r.id].state.Done? {
      var next := e.pool.packets[r.id].next;
      NextOnChain(e.pool, r.id);
      var before, e' := PassesOn(n, actions, s, t, e, r.id);
      actions', f := ScanOn(n, before, s, t, e', next);
      ByThreadAgain(t, actions, before, actions');
      DoneLater(e.pool, r.id, Chain(e.pool, next), f);
      FoundLater(e, e', r.id, Chain(e.pool, next), f);
      f := f + 1;
    }
  }

  lemma NextOnChain(q: Pool, id: nat)
    requires Chained(q) && InPool(q, At(id))
    ensures var next := q.packets[id].next;
            InPool(q, next) && RankOf(q, next) < RankOf(q, At(id)) && Chain(q, At(id)) == [id] + Chain(q, next)
  {
    assert PacketOk(q, q.packets[id]);
  }

  lemma PassesOn(n: nat, actions: seq<Action>, s: State, t: nat, e: Effect, id: nat) returns (actions': seq<Action>, e': Effect)
    requires t < n && t < |s.threads| && Run(n, actions) == Effected(s, t, e)
    requires e.th.pc == Scan(At(id)) && e.th.working.Null? && InPool(e.pool, At(id)) && !e.pool.packets[id].state.Done?
    ensures ByThread(t, actions, actions') && Run(n, actions') == Effected(s, t, e')
    ensures e' == e.(th := e.th.(pc := Scan(e.pool.packets[id].next)))
  {
    var script := Passes(e, t, EnterGather, id);
    actions' := RunGoes(n, actions, s, t, e, script);
    e' := GoesOn(e, t, script);
  }

  lemma FoundLater(e: Effect, e': Effect, id: nat, rest: seq<nat>, f: nat)
    requires e' == e.(th := e'.th) && e'.th == e.th.(pc := e'.th.pc)
    ensures Found(e', rest, f) == Found(e, [id] + rest, f + 1)
  {
  }

  // The scan has come to ids[f], or to the end.
  function Found(e: Effect, ids: seq<nat>, f: nat): Effect {
    e.(th := e.th.(pc := Scan(if f < |ids| then At(ids[f]) else Null)))
  }

  lemma DoneLater(q: Pool, id: nat, rest: seq<nat>, f: nat)
    requires id < |q.packets| && !q.packets[id].state.Done? && FirstDone(q, rest, f)
    ensures FirstDone(q, [id] + rest, f + 1)
  {
  }

  // From the end of the scan to the hand-over.
  lemma Hands(n: nat, actions: seq<Action>, s: State, t: nat, e: Effect, kind: PacketType, r: Ref) returns (actions': seq<Action>)
    requires t < n && t < |s.threads| && Run(n, actions) == Effected(s, t, e) && InPool(e.pool, r) && InPool(e.pool, e.pool.head)
    requires e.th.pc == Scan(r) && e.th.working.Null? && (r.At? ==> e.pool.packets[r.id].state.Done?)
    requires e.pool.head.At? ==> !e.pool.packets[e.pool.head.id].spin
    ensures var id := if r.At? then r.id else |e.pool.packets|;
            && ByThread(t, actions, actions')
            && Run(n, actions') == Effected(s, t, e.(th := Take(e.th, id), pool := HandedOut(e.pool, kind, id)))
  {
    var script;
    if r.At? {
      script := Recycles(e, t, kind, r.id);
      actions' := RunGoes(n, actions, s, t, e, script);
    } else if e.pool.head.Null? {
      script := GrowsFirst(e, t, kind);
      actions' := RunGoes(n, actions, s, t, e, script);
    } else {
      script := Allocates(e, t, kind);
      var before := RunGoes(n, actions, s, t, e, script);
      script := Pushes(e, t, kind);
      actions' := RunGoes(n, before, s, t, Locking(e, kind), script);
      ByThreadAgain(t, actions, before, actions');
    }
  }

  lemma NothingDone(s: State, t: nat)
    requires t < |s.threads|
    ensures Effected(s, t, Effect(s.threads[t], s.pool, [])) == s
  {
    assert s.threads[t := s.threads[t]] == s.threads;
    assert s.committed + [] == s.committed;
  }

  lemma Enters(e: Effect, t: nat)
    requires e.th.pc.Outside? && ThreadOk(e.pool, e.th)
    ensures GoesOn(e, t, Then(EnterGather, End)) ==
            e.(th := e.th.(pc := if e.th.working.Null? then Scan(e.pool.head) else Gather(e.th.working.id)))
  {
  }

  /** get_packet, entered by a thread without a packet and left alone, with the head's spin free: it hands out the
      first DONE packet of the list, reset and where it was, or, if there is none, a new packet that becomes the
      head in front of the old one; nothing else changes. */
  lemma GetPacketAlone(n: nat, actions: seq<Action>, t: nat, kind: PacketType)
    returns (actions': seq<Action>, f: nat)
    requires t < n
    requires var s := Run(n, actions);
             && s.threads[t].pc.Outside? && s.threads[t].working.Null?
             && (s.pool.head.At? ==> !s.pool.packets[s.pool.head.id].spin)
    ensures ByThread(t, actions, actions')
    ensures var s := Run(n, actions); var ids := Chain(s.pool, s.pool.head);
            && FirstDone(s.pool, ids, f)
            && var id := if f < |ids| then ids[f] else |s.pool.packets|;
               Run(n, actions') == s.(threads := s.threads[t := Take(s.threads[t], id)], pool := HandedOut(s.pool, kind, id))
  {
    var s := Run(n, actions);
    var e := Effect(s.threads[t], s.pool, []);
    NothingDone(s, t);
    Enters(e, t);
    var before := RunGoes(n, actions, s, t, e, Then(EnterGather, End));
    var e1 := e.(th := e.th.(pc := Scan(s.pool.head)));
    actions', f := ScanOn(n, before, s, t, e1, s.pool.head);
    ByThreadAgain(t, actions, before, actions');
    var ids := Chain(s.pool, s.pool.head);
    before := actions';
    actions' := Hands(n, before, s, t, Found(e1, ids, f), kind, if f < |ids| then At(ids[f]) else Null);
    ByThreadAgain(t, actions, before, actions');
    assert s.committed + [] == s.committed;
  }

  // --------------------------------------------------------- plugin_gather

  // What one gather makes of the packet: the record it commits, if any, and whether it closes.
  function Gathered(p: Packet, r: Record, wrote: bool, expired: bool): Packet {
    var full := wrote || p.state.Wrote?;
    p.(records := p.records + (if wrote then [r] else []),
       state := if expired then if full then Ready else Done else if full then Wrote else Begin)
  }

  // The thread after it, and the record.
  function Leaves(e: Effect, t: nat, wrote: bool, expired: bool): Effect
    requires e.th.working.At? && e.th.working.id < |e.pool.packets|
  {
    var id, r := e.th.working.id, Record(t, e.th.serial);
    Effect(Thread(Outside, if expired then Null else At(id), e.th.serial + (if wrote then 1 else 0)),
           Put(e.pool, id, Gathered(e.pool.packets[id], r, wrote, expired)), if wrote then [r] else [])
  }

  lemma Fills(e: Effect, t: nat, wrote: bool, expired: bool) returns (script: Script)
    requires e.th.pc.Gather? && ThreadOk(e.pool, e.th) && !e.pool.packets[e.th.pc.id].state.Empty? && e.written == []
    ensures NoPost(script) && GoesOn(e, t, script) == Leaves(e, t, wrote, expired)
  {
    var id := e.th.pc.id;
    var c, c' := Flag(wrote), Flag(expired);
    assert e.pool.packets[id].records + [] == e.pool.packets[id].records;
    var e1 := Goes(e, t, c);
    assert e1.th.pc == Expire(id) && e1.written == (if wrote then [Record(t, e.th.serial)] else []);
    var e2 := Goes(e1, t, c');
    assert e2.pool.packets == Leaves(e, t, wrote, expired).pool.packets;
    if expired {
      script := Then(c, Then(c', Then(c', End)));
      assert GoesOn(e2, t, Then(c', End)) == Goes(e2, t, c') == Leaves(e, t, wrote, expired);
    } else {
      script := Then(c, Then(c', End));
      assert GoesOn(e1, t, Then(c', End)) == e2 == Leaves(e, t, wrote, expired);
    }
  }

  // An EMPTY packet is opened first.
  lemma Opens(e: Effect, t: nat)
    requires e.th.pc.Gather? && ThreadOk(e.pool, e.th) && e.pool.packets[e.th.pc.id].state.Empty?
    ensures var id := e.th.pc.id;
            GoesOn(e, t, Then(Flag(true), End)) == e.(pool := Put(e.pool, id, e.pool.packets[id].(state := Begin)))
  {
    assert e.written + [] == e.written;
  }

  lemma OpenedLeaves(e: Effect, t: nat, e': Effect, wrote: bool, expired: bool)
    requires e.th.working.At? && e.th.working.id < |e.pool.packets| && e.pool.packets[e.th.working.id].state.Empty?
    requires e' == e.(pool := Put(e.pool, e.th.working.id, e.pool.packets[e.th.working.id].(state := Begin)))
    ensures Leaves(e', t, wrote, expired) == Leaves(e, t, wrote, expired)
  {
    assert Leaves(e', t, wrote, expired).pool.packets == Leaves(e, t, wrote, expired).pool.packets;
  }

  lemma FillsOn(n: nat, actions: seq<Action>, s: State, t: nat, e: Effect, wrote: bool, expired: bool) returns (actions': seq<Action>)
    requires e.th.pc.Gather? && ThreadOk(e.pool, e.th) && e.written == []
    requires t < n && t < |s.threads| && Run(n, actions) == Effected(s, t, e)
    requires e.th.working.At? && e.th.working.id < |e.pool.packets|
    ensures ByThread(t, actions, actions') && Run(n, actions') == Effected(s, t, Leaves(e, t, wrote, expired))
  {
    var e', before := e, actions;
    if e.pool.packets[e.th.pc.id].state.Empty? {
      Opens(e, t);
      before := RunGoes(n, actions, s, t, e, Then(Flag(true), End));
      e' := GoesOn(e, t, Then(Flag(true), End));
      OpenedLeaves(e, t, e', wrote, expired);
    }
    var script := Fills(e', t, wrote, expired);
    actions' := RunGoes(n, before, s, t, e', script);
    ByThreadAgain(t, actions, before, actions');
  }

  // The state after a gather by thread t: its record, its packet, its pointer.
  function AfterGather(s: State, t: nat, wrote: bool, expired: bool): State
    requires t < |s.threads| && s.threads[t].working.At? && s.threads[t].working.id < |s.pool.packets|
  {
    var id, r := s.threads[t].working.id, Record(t, s.threads[t].serial);
    s.(threads := s.threads[t := Thread(Outside, if expired then Null else At(id), r.serial + (if wrote then 1 else 0))],
       pool := Put(s.pool, id, Gathered(s.pool.packets[id], r, wrote, expired)),
       committed := s.committed + (if wrote then [r] else []))
  }

  lemma EntersGather(n: nat, actions: seq<Action>, s: State, t: nat) returns (actions': seq<Action>, e: Effect)
    requires Run(n, actions) == s && t < n && t < |s.threads| && ThreadOk(s.pool, s.threads[t])
    requires s.threads[t].pc.Outside? && s.threads[t].working.At?
    ensures ByThread(t, actions, actions') && Run(n, actions') == Effected(s, t, e)
    ensures e == Effect(s.threads[t].(pc := Gather(s.threads[t].working.id)), s.pool, [])
  {
    e := Effect(s.threads[t], s.pool, []);
    NothingDone(s, t);
    Enters(e, t);
    actions' := RunGoes(n, actions, s, t, e, Then(EnterGather, End));
    e := GoesOn(e, t, Then(EnterGather, End));
  }

  lemma LeavesGathered(s: State, t: nat, e: Effect, wrote: bool, expired: bool)
    requires t < |s.threads| && s.threads[t].working.At? && s.threads[t].working.id < |s.pool.packets|
    requires e == Effect(s.threads[t].(pc := Gather(s.threads[t].working.id)), s.pool, [])
    ensures Effected(s, t, Leaves(e, t, wrote, expired)) == AfterGather(s, t, wrote, expired)
  {
  }

  lemma GatherOf(n: nat, actions: seq<Action>, s: State, t: nat, wrote: bool, expired: bool) returns (actions': seq<Action>)
    requires Run(n, actions) == s && t < n && t < |s.threads| && ThreadOk(s.pool, s.threads[t])
    requires s.threads[t].pc.Outside? && s.threads[t].working.At?
    ensures ByThread(t, actions, actions') && Run(n, actions') == AfterGather(s, t, wrote, expired)
  {
    var before, e := EntersGather(n, actions, s, t);
    actions' := FillsOn(n, before, s, t, e, wrote, expired);
    ByThreadAgain(t, actions, before, actions');
    LeavesGathered(s, t, e, wrote, expired);
  }

  /** plugin_gather, entered by a thread that holds a packet and left alone: the record, if there is one, is committed
      to that packet, an expired packet is handed over if it has records and dropped if not, and only then is
      `working` cleared; nothing else changes. */
  lemma GatherAlone(n: nat, actions: seq<Action>, t: nat, wrote: bool, expired: bool) returns (actions': seq<Action>)
    requires t < n && Run(n, actions).threads[t].pc.Outside? && Run(n, actions).threads[t].working.At?
    ensures ByThread(t, actions, actions') && Run(n, actions).threads[t].working.id < |Run(n, actions).pool.packets|
    ensures Run(n, actions') == AfterGather(Run(n, actions), t, wrote, expired)
  {
    var s := Run(n, actions);
    assert ThreadOk(s.pool, s.threads[t]);
    actions' := GatherOf(n, actions, s, t, wrote, expired);
  }

  // ------------------------------------------------------------------ post

  /** An out-of-band post, left alone and with its sender free, takes the sender's lock, holds it while it sends, and
      gives it back. */
  lemma PostAlone(n: nat, actions: seq<Action>, t: nat, kind: PacketType) returns (sending: seq<Action>, actions': seq<Action>)
    requires t < n && Run(n, actions).threads[t].pc.Outside? && kind !in Run(n, actions).busy
    ensures ByThread(t, actions, sending) && ByThread(t, sending, actions')
    ensures var s := Run(n, actions);
            && Run(n, sending) == s.(threads := s.threads[t := s.threads[t].(pc := PostHold(kind))], busy := s.busy + {kind})
            && Run(n, actions') == s
  {
    var s := Run(n, actions);
    assert ThreadOk(s.pool, s.threads[t]);
    PostScript(s, t, kind);
    sending := RunPlays(n, actions, s, t, Then(EnterPost(kind), Then(EnterGather, End)));
    actions' := RunPlays(n, sending, Play(s, t, Then(EnterPost(kind), Then(EnterGather, End))), t, Then(EnterGather, End));
  }

  lemma PostScript(s: State, t: nat, kind: PacketType)
    requires t < |s.threads| && s.threads[t].pc.Outside? && ThreadOk(s.pool, s.threads[t]) && kind !in s.busy
    ensures var s' := Play(s, t, Then(EnterPost(kind), Then(EnterGather, End)));
            && s' == s.(threads := s.threads[t := s.threads[t].(pc := PostHold(kind))], busy := s.busy + {kind})
            && Play(s', t, Then(EnterGather, End)) == s
  {
    var th := s.threads[t];
    var s1 := Moved(s, t, EnterPost(kind));
    assert s.committed + [] == s.committed;
    assert s1 == s.(threads := s.threads[t := th.(pc := PostLock(kind))]);
    var s2 := Moved(s1, t, EnterGather);
    assert s2.threads == s.threads[t := th.(pc := PostHold(kind))];
    var s3 := Moved(s2, t, EnterGather);
    assert s3.threads == s.threads && s3.busy == s.busy;
  }
}
