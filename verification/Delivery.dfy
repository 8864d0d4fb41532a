/**
 The pool and the buffers together: what storage posts in any interleaving is, byte
 for byte, the JSON document of the records it accounts for.

 A run of the pool is accompanied by the texts of its packets, changed by the same
 instructions in the way the packet buffer's methods specify: the header on opening,
 a separated record on commit, the closing brackets on hand-over, nothing on claim.
 */
module Delivery {
  import opened PacketTypes
  import opened PacketPool
  import opened PoolRuns
  import opened Json
  import G = Gathering

  // The license, each plugin's tid, and what each record says.
  datatype World = World(license: string, tid: nat -> nat, content: Record -> Json)

  function HeaderOf(w: World, t: nat): string { G.Header(w.license, w.tid(t)) }

  function Contents(w: World, records: seq<Record>): (js: seq<Json>)
    ensures |js| == |records|
  {
    if records == [] then [] else Contents(w, records[..|records| - 1]) + [w.content(records[|records| - 1])]
  }

  // ------------------------------------------------------ texts along a run

  // What an instruction of thread t does to the texts.
  function TextStep(w: World, q: Pool, th: Thread, t: nat, c: Choice, texts: seq<string>): seq<string>
    requires ThreadOk(q, th) && |texts| == |q.packets|
  {
    match th.pc
    case Scan(cursor) => if cursor.Null? then texts + [""] else texts
    case Recycle(id) => texts[id := ""]
    case Gather(id) =>
      if q.packets[id].state.Empty? then texts[id := texts[id] + HeaderOf(w, t)]
      else if c == Flag(true) then
        texts[id := texts[id] + (if q.packets[id].state.Wrote? then "," else "") + Render(w.content(Record(t, th.serial)))]
      else texts
    case Expire(id) => if c == Flag(true) && q.packets[id].state.Wrote? then texts[id := texts[id] + "]}"] else texts
    case _ => texts
  }

  /** The texts of all packets, and for every post that returned 0 its payload and the records it moved into
      the accepted log. */
  datatype Wire = Wire(texts: seq<string>, posts: seq<string>, batches: seq<seq<Record>>)

  function WireStep(w: World, s: State, wire: Wire, a: Action): Wire
    requires Shape(s) && |wire.texts| == |s.pool.packets|
  {
    match a
    case OfPlugin(t, c) =>
      if t < |s.threads| && ThreadOk(s.pool, s.threads[t]) then
        wire.(texts := TextStep(w, s.pool, s.threads[t], t, c, wire.texts))
      else wire
    case OfStorage(ok) =>
      if ok && s.storage.Sending? then
        wire.(posts := wire.posts + [wire.texts[s.storage.id]], batches := wire.batches + [s.pool.packets[s.storage.id].records])
      else wire
  }

  lemma WireSize(w: World, s: State, wire: Wire, a: Action)
    requires Shape(s) && |wire.texts| == |s.pool.packets|
    ensures |WireStep(w, s, wire, a).texts| == |Step(s, a).pool.packets|
  {
    if a.OfPlugin? && a.t < |s.threads| { assert ThreadOk(s.pool, s.threads[a.t]); }
  }

  function WireOf(w: World, n: nat, actions: seq<Action>): (wire: Wire)
    ensures |wire.texts| == |Run(n, actions).pool.packets|
  {
    if actions == [] then Wire([], [], [])
    else
      var before, a := actions[..|actions| - 1], actions[|actions| - 1];
      WireSize(w, Run(n, before), WireOf(w, n, before), a);
      WireStep(w, Run(n, before), WireOf(w, n, before), a)
  }

  // ----------------------------------------------------------- the invariant

  // Packet p, with this text, is one of plugin t's: its records are t's and its text is that of a batch of them.
  ghost predicate Told(w: World, t: nat, p: Packet, text: string) {
    && (forall i :: 0 <= i < |p.records| ==> p.records[i].plugin == t)
    && text == G.TextOf(HeaderOf(w, t), G.Batch(p.state, 0, Contents(w, p.records)))
  }

  // The packet a thread holds is told, except between claiming it and resetting it.
  ghost predicate ThreadTold(w: World, q: Pool, texts: seq<string>, t: nat, th: Thread)
    requires ThreadOk(q, th) && |texts| == |q.packets|
  {
    Held(th).At? && !th.pc.Recycle? ==> Told(w, t, q.packets[Held(th).id], texts[Held(th).id])
  }

  ghost predicate PacketTold(w: World, p: Packet, text: string) {
    p.state.Ready? ==> p.records != [] && Told(w, p.records[0].plugin, p, text)
  }

  ghost predicate TextsOk(w: World, q: Pool, threads: seq<Thread>, texts: seq<string>) {
    && |texts| == |q.packets|
    && (forall k :: 0 <= k < |texts| ==> PacketTold(w, q.packets[k], texts[k]))
    && (forall t :: 0 <= t < |threads| ==> ThreadOk(q, threads[t]) && ThreadTold(w, q, texts, t, threads[t]))
  }

  lemma Committed(w: World, t: nat, p: Packet, text: string, r: Record)
    requires Told(w, t, p, text) && r.plugin == t && (p.state.Begin? || p.state.Wrote?)
    requires p.state.Wrote? <==> p.records != []
    ensures Told(w, t, p.(state := Wrote, records := p.records + [r]),
                 text + (if p.state.Wrote? then "," else "") + Render(w.content(r)))
  {
    var js, j := Contents(w, p.records), w.content(r);
    assert (p.records + [r])[..|p.records|] == p.records;
    assert Contents(w, p.records + [r]) == js + [j];
    ElementsLast(js, j);
    JoinLast(RenderElements(js), Render(j));
    Regrouped(HeaderOf(w, t), Join(RenderElements(js)), if p.state.Wrote? then "," else "", Render(j));
  }

  lemma Regrouped(a: string, b: string, c: string, d: string)
    ensures a + b + c + d == a + (b + c + d)
  {
  }

  // What an instruction of thread t leaves behind: the texts of other packets alone, its own packet told,
  // and the packet it wrote told if READY.
  ghost predicate TextEffect(w: World, q: Pool, th: Thread, t: nat, e: Effect, texts: seq<string>, texts': seq<string>)
    requires |texts| == |q.packets| && |texts'| == |e.pool.packets| && ThreadOk(e.pool, e.th)
  {
    var k := Target(q, th);
    && (forall j :: 0 <= j < |texts| && j != k && j < |texts'| ==> texts'[j] == texts[j])
    && (k < |texts'| ==> PacketTold(w, e.pool.packets[k], texts'[k]))
    && (k < |texts| && k < |texts'| ==> texts'[k] == texts[k] || Held(th) == At(k))
    && ThreadTold(w, e.pool, texts', t, e.th)
  }

  lemma GatherTexts(w: World, q: Pool, th: Thread, t: nat, c: Choice, texts: seq<string>)
    requires Chained(q) && ThreadOk(q, th) && |texts| == |q.packets| && ThreadTold(w, q, texts, t, th) && th.pc.Gather?
    requires var e := LocalStep(q, th, t, c); ThreadOk(e.pool, e.th)
    ensures var e := LocalStep(q, th, t, c); var texts' := TextStep(w, q, th, t, c, texts);
            |texts'| == |e.pool.packets| && TextEffect(w, q, th, t, e, texts, texts')
  {
    var id := th.pc.id;
    if q.packets[id].state.Empty? {
      Opened(w, t, q.packets[id], texts[id]);
    } else if c == Flag(true) {
      Committed(w, t, q.packets[id], texts[id], Record(t, th.serial));
    }
  }

  lemma Opened(w: World, t: nat, p: Packet, text: string)
    requires Told(w, t, p, text) && p.state.Empty? && p.records == []
    ensures Told(w, t, p.(state := Begin), text + HeaderOf(w, t))
  {
    assert "" + HeaderOf(w, t) == HeaderOf(w, t) + "";
  }

  lemma Closed(w: World, t: nat, p: Packet, text: string)
    requires Told(w, t, p, text) && p.state.Wrote?
    ensures Told(w, t, p.(state := Ready), text + "]}")
  {
  }

  lemma ExpireTexts(w: World, q: Pool, th: Thread, t: nat, c: Choice, texts: seq<string>)
    requires Chained(q) && ThreadOk(q, th) && |texts| == |q.packets| && ThreadTold(w, q, texts, t, th) && th.pc.Expire?
    requires var e := LocalStep(q, th, t, c); ThreadOk(e.pool, e.th)
    ensures var e := LocalStep(q, th, t, c); var texts' := TextStep(w, q, th, t, c, texts);
            |texts'| == |e.pool.packets| && TextEffect(w, q, th, t, e, texts, texts')
  {
    var id := th.pc.id;
    if q.packets[id].state.Wrote? { Closed(w, t, q.packets[id], texts[id]); }
  }

  // Finding or allocating a packet: its text is empty when it is handed out.
  lemma ScanTexts(w: World, q: Pool, th: Thread, t: nat, c: Choice, texts: seq<string>)
    requires Chained(q) && ThreadOk(q, th) && |texts| == |q.packets| && ThreadTold(w, q, texts, t, th)
    requires th.pc.Scan? || th.pc.Advance? || th.pc.Recycle?
    requires forall k :: 0 <= k < |texts| ==> PacketTold(w, q.packets[k], texts[k])
    requires var e := LocalStep(q, th, t, c); ThreadOk(e.pool, e.th)
    ensures var e := LocalStep(q, th, t, c); var texts' := TextStep(w, q, th, t, c, texts);
            |texts'| == |e.pool.packets| && TextEffect(w, q, th, t, e, texts, texts')
  {
  }

  // Publishing changes links only.
  lemma PushTexts(w: World, q: Pool, th: Thread, t: nat, c: Choice, texts: seq<string>)
    requires Chained(q) && ThreadOk(q, th) && |texts| == |q.packets| && ThreadTold(w, q, texts, t, th)
    requires th.pc.Fresh? || th.pc.FirstCas? || th.pc.ReadLock? || th.pc.Link? || th.pc.Publish?
    requires forall k :: 0 <= k < |texts| ==> PacketTold(w, q.packets[k], texts[k])
    requires var e := LocalStep(q, th, t, c); ThreadOk(e.pool, e.th)
    ensures var e := LocalStep(q, th, t, c); var texts' := TextStep(w, q, th, t, c, texts);
            |texts'| == |e.pool.packets| && TextEffect(w, q, th, t, e, texts, texts')
  {
  }

  // Locks change spins only.
  lemma LockTexts(w: World, q: Pool, th: Thread, t: nat, c: Choice, texts: seq<string>)
    requires Chained(q) && ThreadOk(q, th) && |texts| == |q.packets| && ThreadTold(w, q, texts, t, th)
    requires th.pc.SpinLock? || th.pc.Unlock?
    requires forall k :: 0 <= k < |texts| ==> PacketTold(w, q.packets[k], texts[k])
    requires var e := LocalStep(q, th, t, c); ThreadOk(e.pool, e.th)
    ensures var e := LocalStep(q, th, t, c); var texts' := TextStep(w, q, th, t, c, texts);
            |texts'| == |e.pool.packets| && TextEffect(w, q, th, t, e, texts, texts')
  {
  }

  // Entering and leaving.
  lemma IdleTexts(w: World, q: Pool, th: Thread, t: nat, c: Choice, texts: seq<string>)
    requires Chained(q) && ThreadOk(q, th) && |texts| == |q.packets| && ThreadTold(w, q, texts, t, th)
    requires th.pc.Outside? || th.pc.Forget?
    requires forall k :: 0 <= k < |texts| ==> PacketTold(w, q.packets[k], texts[k])
    requires var e := LocalStep(q, th, t, c); ThreadOk(e.pool, e.th)
    ensures var e := LocalStep(q, th, t, c); var texts' := TextStep(w, q, th, t, c, texts);
            |texts'| == |e.pool.packets| && TextEffect(w, q, th, t, e, texts, texts')
  {
  }

  lemma LocalTexts(w: World, q: Pool, th: Thread, t: nat, c: Choice, texts: seq<string>)
    requires Chained(q) && ThreadOk(q, th) && |texts| == |q.packets| && ThreadTold(w, q, texts, t, th)
    requires !th.pc.PostLock? && !th.pc.PostHold?
    requires forall k :: 0 <= k < |texts| ==> PacketTold(w, q.packets[k], texts[k])
    requires var e := LocalStep(q, th, t, c); ThreadOk(e.pool, e.th)
    ensures var e := LocalStep(q, th, t, c); var texts' := TextStep(w, q, th, t, c, texts);
            |texts'| == |e.pool.packets| && TextEffect(w, q, th, t, e, texts, texts')
  {
    match th.pc
    case Gather(_) => GatherTexts(w, q, th, t, c, texts);
    case Expire(_) => ExpireTexts(w, q, th, t, c, texts);
    case Scan(_) => ScanTexts(w, q, th, t, c, texts);
    case Advance(_) => ScanTexts(w, q, th, t, c, texts);
    case Recycle(_) => ScanTexts(w, q, th, t, c, texts);
    case SpinLock(_, _) => LockTexts(w, q, th, t, c, texts);
    case Unlock(_, _) => LockTexts(w, q, th, t, c, texts);
    case Outside => IdleTexts(w, q, th, t, c, texts);
    case Forget(_) => IdleTexts(w, q, th, t, c, texts);
    case _ => PushTexts(w, q, th, t, c, texts);
  }

  // The other threads' packets are still told.
  lemma EffectTexts(w: World, s: State, t: nat, e: Effect, texts: seq<string>, texts': seq<string>)
    requires Shape(s) && t < |s.threads| && TextsOk(w, s.pool, s.threads, texts)
    requires Sound(s.pool, s.threads[t], e) && |texts'| == |e.pool.packets|
    requires TextEffect(w, s.pool, s.threads[t], t, e, texts, texts')
    requires Owned(e.pool, s.threads[t := e.th])
    ensures TextsOk(w, e.pool, s.threads[t := e.th], texts')
  {
    var q, th, k := s.pool, s.threads[t], Target(s.pool, s.threads[t]);
    var threads' := s.threads[t := e.th];
    assert Local(q, e.pool, k);
    forall j | 0 <= j < |texts'| ensures PacketTold(w, e.pool.packets[j], texts'[j]) {
      if j != k { assert PacketTold(w, q.packets[j], texts[j]); }
    }
    if Held(th).At? { HeldAlone(q, s.threads, t, Held(th).id); }
    forall u | 0 <= u < |threads'| ensures ThreadOk(e.pool, threads'[u]) && ThreadTold(w, e.pool, texts', u, threads'[u]) {
      assert ThreadOk(e.pool, threads'[u]);
      if u != t { OthersTold(w, s, t, e, texts, texts', u); }
    }
  }

  lemma OthersTold(w: World, s: State, t: nat, e: Effect, texts: seq<string>, texts': seq<string>, u: nat)
    requires Shape(s) && t < |s.threads| && u < |s.threads| && u != t && TextsOk(w, s.pool, s.threads, texts)
    requires Sound(s.pool, s.threads[t], e) && |texts'| == |e.pool.packets|
    requires TextEffect(w, s.pool, s.threads[t], t, e, texts, texts')
    requires ThreadOk(e.pool, s.threads[u])
    ensures ThreadTold(w, e.pool, texts', u, s.threads[u])
  {
    var q, th, k := s.pool, s.threads[t], Target(s.pool, s.threads[t]);
    assert ThreadTold(w, q, texts, u, s.threads[u]);
    if Held(s.threads[u]).At? {
      var j := Held(s.threads[u]).id;
      HeldAlone(q, s.threads, u, j);
      assert Held(th) != At(j);
      assert ThreadOk(q, s.threads[u]);
    }
  }

  lemma PostTexts(w: World, s: State, t: nat, c: Choice, texts: seq<string>)
    requires Shape(s) && t < |s.threads| && TextsOk(w, s.pool, s.threads, texts) && ThreadOk(s.pool, s.threads[t])
    requires s.threads[t].pc.PostLock? || s.threads[t].pc.PostHold?
    ensures TextsOk(w, s.pool, ThreadStep(s, t, c).threads, texts)
  {
    var threads' := ThreadStep(s, t, c).threads;
    forall u | 0 <= u < |threads'| ensures ThreadOk(s.pool, threads'[u]) && ThreadTold(w, s.pool, texts, u, threads'[u]) {
      assert ThreadTold(w, s.pool, texts, u, s.threads[u]);
    }
  }

  lemma ThreadTexts(w: World, s: State, t: nat, c: Choice, texts: seq<string>)
    requires Shape(s) && t < |s.threads| && TextsOk(w, s.pool, s.threads, texts) && ThreadOk(s.pool, s.threads[t])
    ensures var s' := ThreadStep(s, t, c); TextsOk(w, s'.pool, s'.threads, TextStep(w, s.pool, s.threads[t], t, c, texts))
  {
    var q, th := s.pool, s.threads[t];
    if th.pc.PostLock? || th.pc.PostHold? {
      PostTexts(w, s, t, c, texts);
    } else {
      var e, texts' := LocalStep(q, th, t, c), TextStep(w, q, th, t, c, texts);
      LocalStepSound(q, th, t, c);
      EffectShape(s, t, e);
      assert ThreadTold(w, q, texts, t, th);
      LocalTexts(w, q, th, t, c, texts);
      EffectTexts(w, s, t, e, texts, texts');
    }
  }

  // Storage sets and clears spins and takes READY to DONE.
  predicate Touched(p: Packet, p': Packet) { SameButSpin(p, p') || (p.state.Ready? && p'.state.Done?) }

  lemma StorageTouches(s: State, ok: bool)
    requires StorageOk(s.pool, s.storage)
    ensures var q, q' := s.pool, StorageStep(s, ok).pool;
            |q'.packets| == |q.packets| && forall k :: 0 <= k < |q.packets| ==> Touched(q.packets[k], q'.packets[k])
  {
  }

  lemma TouchedTexts(w: World, q: Pool, q': Pool, threads: seq<Thread>, texts: seq<string>)
    requires TextsOk(w, q, threads, texts) && Owned(q', threads)
    requires |q'.packets| == |q.packets| && forall k :: 0 <= k < |q.packets| ==> Touched(q.packets[k], q'.packets[k])
    ensures TextsOk(w, q', threads, texts)
  {
    forall k | 0 <= k < |texts| ensures PacketTold(w, q'.packets[k], texts[k]) {
      assert PacketTold(w, q.packets[k], texts[k]) && Touched(q.packets[k], q'.packets[k]);
    }
    forall u | 0 <= u < |threads| ensures ThreadOk(q', threads[u]) && ThreadTold(w, q', texts, u, threads[u]) {
      TouchedTold(w, q, q', texts, u, threads[u]);
    }
  }

  lemma TouchedTold(w: World, q: Pool, q': Pool, texts: seq<string>, u: nat, th: Thread)
    requires ThreadOk(q, th) && ThreadOk(q', th) && |texts| == |q.packets| == |q'.packets| && ThreadTold(w, q, texts, u, th)
    requires forall k :: 0 <= k < |q.packets| ==> Touched(q.packets[k], q'.packets[k])
    ensures ThreadTold(w, q', texts, u, th)
  {
    if Held(th).At? { assert Touched(q.packets[Held(th).id], q'.packets[Held(th).id]); }
  }

  lemma StorageTexts(w: World, s: State, ok: bool, texts: seq<string>)
    requires Shape(s) && TextsOk(w, s.pool, s.threads, texts)
    ensures var s' := StorageStep(s, ok); TextsOk(w, s'.pool, s'.threads, texts)
  {
    StorageShape(s, ok);
    StorageTouches(s, ok);
    TouchedTexts(w, s.pool, StorageStep(s, ok).pool, s.threads, texts);
    assert StorageStep(s, ok).threads == s.threads;
  }

  // ------------------------------------------------------------- the posts

  function Concat(batches: seq<seq<Record>>): seq<Record> {
    if batches == [] then [] else Concat(batches[..|batches| - 1]) + batches[|batches| - 1]
  }

  // The payload is the document of the batch: some records, all of one plugin.
  ghost predicate Faithful(w: World, post: string, batch: seq<Record>) {
    && batch != [] && (forall i :: 0 <= i < |batch| ==> batch[i].plugin == batch[0].plugin)
    && post == Render(G.Document(w.license, w.tid(batch[0].plugin), Contents(w, batch)))
  }

  ghost predicate WireOk(w: World, s: State, wire: Wire) {
    && TextsOk(w, s.pool, s.threads, wire.texts)
    && |wire.posts| == |wire.batches| && Concat(wire.batches) == s.accepted
    && (forall i :: 0 <= i < |wire.posts| ==> Faithful(w, wire.posts[i], wire.batches[i]))
  }

  // A READY packet's text is the document of its records.
  lemma ReadyIsFaithful(w: World, p: Packet, text: string)
    requires p.state.Ready? && PacketTold(w, p, text)
    ensures Faithful(w, text, p.records)
  {
    G.ReadyIsDocument(w.license, w.tid(p.records[0].plugin), G.Batch(Ready, 0, Contents(w, p.records)));
  }

  lemma StoragePosts(w: World, s: State, wire: Wire, ok: bool)
    requires Shape(s) && WireOk(w, s, wire)
    ensures WireOk(w, StorageStep(s, ok), WireStep(w, s, wire, OfStorage(ok)))
  {
    StorageTexts(w, s, ok, wire.texts);
    if ok && s.storage.Sending? {
      var id := s.storage.id;
      ReadyIsFaithful(w, s.pool.packets[id], wire.texts[id]);
      var batches' := wire.batches + [s.pool.packets[id].records];
      assert batches'[..|wire.batches|] == wire.batches;
    } else {
      assert StorageStep(s, ok).accepted == s.accepted;
    }
  }

  lemma StepWire(w: World, s: State, wire: Wire, a: Action)
    requires Shape(s) && WireOk(w, s, wire)
    ensures WireOk(w, Step(s, a), WireStep(w, s, wire, a))
  {
    match a
    case OfPlugin(t, c) =>
      if t < |s.threads| {
        assert ThreadOk(s.pool, s.threads[t]);
        ThreadTexts(w, s, t, c, wire.texts);
        assert ThreadStep(s, t, c).accepted == s.accepted;
      }
    case OfStorage(ok) => StoragePosts(w, s, wire, ok);
  }

  /** In every interleaving, whatever the records say: each payload accepted from storage is the JSON document
      of exactly the records its acceptance moved into the log, all of one plugin and under that plugin's tid,
      and the log is these batches one after the other. */
  lemma {:induction false} PostsAreFaithful(w: World, n: nat, actions: seq<Action>)
    ensures WireOk(w, Run(n, actions), WireOf(w, n, actions))
  {
    if actions != [] {
      var before, a := actions[..|actions| - 1], actions[|actions| - 1];
      PostsAreFaithful(w, n, before);
      StepWire(w, Run(n, before), WireOf(w, n, before), a);
    }
  }
}
