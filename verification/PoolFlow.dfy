/**
 A record's way through the pool: from every state with no lock taken there is a run
 in which a plugin claims a packet, gathers a record, hands the packet over, and
 storage has it accepted.
 */
module PoolFlow {
  import opened PacketTypes
  import opened PacketPool
  import opened PoolRuns
  import opened PoolList
  import C = PoolCalls
  import P = PoolPass

  // Nobody is in the way: no spin set, no sender in use, storage at rest.
  predicate Unlocked(s: State) {
    s.storage.Resting? && s.busy == {} && forall k :: 0 <= k < |s.pool.packets| ==> !s.pool.packets[k].spin
  }

  // The pool once thread t's new packet holds one record and is READY.
  function Filled(q: Pool, id: nat, r: Record): Pool
    requires id < |q.packets|
  {
    Put(q, id, q.packets[id].(state := Ready, records := [r]))
  }

  lemma HandedOutUnlocked(q: Pool, id: nat, r: Record)
    requires id <= |q.packets| && forall k :: 0 <= k < |q.packets| ==> !q.packets[k].spin
    ensures var q1 := C.HandedOut(q, Metric, id);
            && id < |q1.packets| && q1.packets[id].state.Empty? && q1.packets[id].records == []
            && forall k :: 0 <= k < |q1.packets| ==> !Filled(q1, id, r).packets[k].spin
  {
  }

  // The packet handed out is on the list, and stays there.
  lemma FilledOnList(q: Pool, f: nat, r: Record)
    requires Linked(q) && C.FirstDone(q, Chain(q, q.head), f)
    requires var ids := Chain(q, q.head); var id := if f < |ids| then ids[f] else |q.packets|;
             var q1 := C.HandedOut(q, Metric, id); Chained(q1) && Chained(Filled(q1, id, r))
    ensures var ids := Chain(q, q.head); var id := if f < |ids| then ids[f] else |q.packets|;
            var q2 := Filled(C.HandedOut(q, Metric, id), id, r); id in Chain(q2, q2.head)
  {
    var ids := Chain(q, q.head);
    var id := if f < |ids| then ids[f] else |q.packets|;
    var q2 := Filled(C.HandedOut(q, Metric, id), id, r);
    if f < |ids| {
      ChainFrozen(q, q2, q.head);
      assert Chain(q2, q2.head)[f] == id;
    } else {
      assert Chain(q2, q2.head)[0] == id;
    }
  }

  lemma {:induction false} RecordsOfHas(q: Pool, ids: seq<nat>, id: nat)
    requires id in ids && (forall i :: 0 <= i < |ids| ==> ids[i] < |q.packets|) && q.packets[id].state.Ready?
    ensures P.AllIn(q.packets[id].records, P.RecordsOf(q, ids))
  {
    if ids[0] != id { RecordsOfHas(q, ids[1..], id); }
  }

  // The gather that follows get_packet: one record, and the packet is handed over.
  lemma GathersOne(n: nat, actions: seq<Action>, s: State, t: nat, id: nat) returns (actions': seq<Action>)
    requires t < n && t < |s.threads| && s.threads[t].pc == Gather(id) && ThreadOk(s.pool, s.threads[t])
    requires id < |s.pool.packets| && s.pool.packets[id].records == [] && Run(n, actions) == s
    ensures actions <= actions'
    ensures var s' := Run(n, actions');
            && s'.pool == Filled(s.pool, id, Record(t, s.threads[t].serial))
            && s'.storage == s.storage && s'.busy == s.busy && s'.accepted == s.accepted
  {
    var e := Effect(s.threads[t], s.pool, []);
    C.NothingDone(s, t);
    actions' := C.FillsOn(n, actions, s, t, e, true, true);
    assert s.pool.packets[id].records + [Record(t, s.threads[t].serial)] == [Record(t, s.threads[t].serial)];
  }

  // When nothing is refused, a pass has the records of every READY packet of the list accepted.
  lemma AllPassed(s: State, ids: seq<nat>, answer: nat -> bool, f: nat, s': State, id: nat)
    requires P.PassedTo(s, ids, answer, f, s') && (forall k :: answer(k))
    requires id in ids && id < |s.pool.packets| && s.pool.packets[id].state.Ready?
    ensures P.AllIn(s.pool.packets[id].records, s'.accepted)
  {
    assert f == |ids| && ids[..f] == ids;
    RecordsOfHas(s.pool, ids, id);
  }

  lemma UnlockedIsClear(s: State)
    requires Chained(s.pool) && InPool(s.pool, s.pool.head) && Unlocked(s)
    ensures P.ClearFrom(s, s.pool.head)
  {
  }

  lemma PassAccepts(n: nat, actions: seq<Action>, s: State, id: nat) returns (actions': seq<Action>)
    requires Run(n, actions) == s && Unlocked(s) && id < |s.pool.packets| && s.pool.packets[id].state.Ready?
    requires id in Chain(s.pool, s.pool.head)
    ensures actions <= actions' && P.AllIn(s.pool.packets[id].records, Run(n, actions').accepted)
  {
    var answer := (k: nat) => true;
    var f;
    UnlockedIsClear(s);
    actions', f := P.PassAlone(n, actions, answer);
    AllPassed(s, Chain(s.pool, s.pool.head), answer, f, Run(n, actions'), id);
  }

  // A plugin claims a packet, gathers into it and hands it over: it is READY, with its record, on the list.
  lemma Fills(n: nat, s: State, t: nat, claimed: seq<Action>, s1: State, f: nat, id: nat)
    returns (actions': seq<Action>, s2: State)
    requires t < n && t < |s.threads| && Linked(s.pool) && Unlocked(s) && Run(n, claimed) == s1
    requires C.FirstDone(s.pool, Chain(s.pool, s.pool.head), f)
    requires var ids := Chain(s.pool, s.pool.head); id == if f < |ids| then ids[f] else |s.pool.packets|
    requires s1 == s.(threads := s.threads[t := Take(s.threads[t], id)], pool := C.HandedOut(s.pool, Metric, id))
    ensures claimed <= actions' && Run(n, actions') == s2 && Unlocked(s2) && Chained(s2.pool) && InPool(s2.pool, s2.pool.head)
    ensures id < |s2.pool.packets| && s2.pool.packets[id].state.Ready? && id in Chain(s2.pool, s2.pool.head)
    ensures s2.pool.packets[id].records == [Record(t, s.threads[t].serial)]
  {
    var r := Record(t, s.threads[t].serial);
    HandedOutUnlocked(s.pool, id, r);
    assert s1.threads[t] == Take(s.threads[t], id) && ThreadOk(s1.pool, s1.threads[t]);
    actions' := GathersOne(n, claimed, s1, t, id);
    s2 := Run(n, actions');
    FilledOnList(s.pool, f, r);
  }

  /** From every state with no lock taken, and so from the first, whichever plugin is between two packets: there is a run in which
      its next record is committed and accepted. */
  lemma RecordIsDelivered(n: nat, actions: seq<Action>, t: nat) returns (actions': seq<Action>)
    requires t < n && Unlocked(Run(n, actions))
    requires Run(n, actions).threads[t].pc.Outside? && Run(n, actions).threads[t].working.Null?
    ensures actions <= actions' && Record(t, Run(n, actions).threads[t].serial) in Run(n, actions').accepted
  {
    var s := Run(n, actions);
    var claimed, f := C.GetPacketAlone(n, actions, t, Metric);
    var ids := Chain(s.pool, s.pool.head);
    var id := if f < |ids| then ids[f] else |s.pool.packets|;
    var filled, s2 := Fills(n, s, t, claimed, Run(n, claimed), f, id);
    actions' := PassAccepts(n, filled, s2, id);
    Accepted(s2.pool.packets[id].records, Record(t, s.threads[t].serial), Run(n, actions').accepted);
  }

  lemma Accepted(records: seq<Record>, r: Record, log: seq<Record>)
    requires records == [r] && P.AllIn(records, log)
    ensures r in log
  {
    assert records[0] == r;
  }

  /** The first state has none taken, so records do get through: any plugin's first one can. */
  lemma DeliveryHappens(n: nat, t: nat) returns (actions: seq<Action>)
    requires t < n
    ensures Record(t, 0) in Run(n, actions).accepted
  {
    assert Run(n, []) == Init(n);
    actions := RecordIsDelivered(n, [], t);
  }
}
