/**
 Filling a packet: one call of `plugin_gather` adds at most one record inside a
 transaction and closes the packet when it has expired.
 */
module Gathering {
  import opened PacketTypes
  import opened Json
  import opened Decimal
  import opened Gatherers
  import opened Packets

  const MSPS := 1000
  const PACKET_EXP := 6.033

  // packet_expired: whole seconds since the packet was started, compared with 6.033
  predicate Expired(now: nat, started: nat)
    requires started <= now
  {
    ((now - started) / MSPS) as real >= PACKET_EXP
  }

  lemma ExpiredAfter7s(now: nat, started: nat)
    requires started <= now
    ensures Expired(now, started) <==> now - started >= 7000
  {
    var elapsed := now - started;
    assert elapsed / MSPS >= 7 <==> elapsed >= 7000;
    if elapsed / MSPS <= 6 { assert (elapsed / MSPS) as real <= 6.0; } else { assert (elapsed / MSPS) as real >= 7.0; }
  }

  // ------------------------------------------------------ specification

  /** What a packet under construction stands for. */
  datatype Batch = Batch(state: PacketState, started: nat, records: seq<Json>)

  // One call of plugin_gather: its two clock readings and what the module's gatherer does.
  datatype Attempt = Attempt(begin: nat, finish: nat, source: Gatherer)

  const FRESH := Batch(Empty, 0, [])

  predicate Open(b: Batch) { b.state.Empty? || b.state.Begin? || b.state.Wrote? }

  // An open batch is WROTE exactly when it has records.
  predicate Sane(b: Batch) {
    (b.state.Wrote? || b.state.Ready? ==> b.records != []) && (b.state.Empty? || b.state.Begin? ==> b.records == [])
  }

  function RecordOf(a: Attempt): Json {
    Object([Member("timestamp", Raw(Digits(a.begin))), Member("values", Value(a.source))])
  }

  // When the batch counts as started if attempt a is made now.
  function StartedAt(b: Batch, a: Attempt): nat { if b.state.Wrote? then b.started else a.begin }

  function Advance(b: Batch, a: Attempt): Batch
    requires Open(b) && StartedAt(b, a) <= a.finish
  {
    var records := if Outcome(a.source) == ENONE then b.records + [RecordOf(a)] else b.records;
    var wrote := b.state.Wrote? || Outcome(a.source) == ENONE;
    var state := if Expired(a.finish, StartedAt(b, a)) then if wrote then Ready else Done else if wrote then Wrote else Begin;
    Batch(state, StartedAt(b, a), records)
  }

  function Header(license: string, tid: nat): string {
    "{\"license\":\"" + license + "\",\"tid\":" + Digits(tid) + ",\"metrics\":["
  }

  function Records(b: Batch): string { Join(RenderElements(b.records)) }

  // The text of a packet that stands for b.
  function TextOf(header: string, b: Batch): string {
    match b.state
    case Empty => ""
    case Ready => header + Records(b) + "]}"
    case _ => header + Records(b)
  }

  /** A closed batch is one JSON object with the records as an array. */
  function Document(license: string, tid: nat, records: seq<Json>): Json {
    Object([Member("license", Raw("\"" + license + "\"")), Member("tid", Raw(Digits(tid))), Member("metrics", Array(records))])
  }

  lemma ReadyIsDocument(license: string, tid: nat, b: Batch)
    requires b.state.Ready?
    ensures TextOf(Header(license, tid), b) == Render(Document(license, tid, b.records))
  {
    var m1, m2, m3 := Member("license", Raw("\"" + license + "\"")), Member("tid", Raw(Digits(tid))), Member("metrics", Array(b.records));
    ThreeMembers(m1, m2, m3);
    MemberNames("\"" + license + "\"", Digits(tid), Render(Array(b.records)));
    DocumentText(license, Digits(tid), Records(b));
  }

  lemma MemberNames(license: string, tid: string, metrics: string)
    ensures RenderMember(Member("license", Raw(license))) == "\"license\":" + license
    ensures RenderMember(Member("tid", Raw(tid))) == "\"tid\":" + tid
    ensures "\"" + "metrics" + "\":" + metrics == "\"metrics\":" + metrics
  {
    assert "\"" + "license" + "\":" == "\"license\":";
    assert "\"" + "tid" + "\":" == "\"tid\":";
    assert "\"" + "metrics" + "\":" == "\"metrics\":";
  }

  // The same characters, grouped as the packet appends them and as the members are rendered.
  lemma DocumentText(license: string, tid: string, records: string)
    ensures "{\"license\":\"" + license + "\",\"tid\":" + tid + ",\"metrics\":[" + records + "]}"
         == "{" + ("\"license\":" + ("\"" + license + "\"")) + "," + ("\"tid\":" + tid) + "," + ("\"metrics\":" + ("[" + records + "]")) + "}"
  {
    var name1, name2, name3 := "\"license\":", "\"tid\":", "\"metrics\":";
    assert "{\"license\":\"" == "{" + name1 + "\"";
    assert "\",\"tid\":" == "\"" + "," + name2;
    assert ",\"metrics\":[" == "," + name3 + "[";
    assert "]}" == "]" + "}";
    Regrouped("{", name1, "\"", license, ",", name2, tid, name3, "[", records, "]", "}");
  }

  lemma Regrouped(a: string, b: string, c: string, d: string, e: string, f: string, g: string, h: string,
                  i: string, j: string, k: string, l: string)
    ensures (a + b + c) + d + (c + e + f) + g + (e + h + i) + j + (k + l)
         == a + (b + (c + d + c)) + e + (f + g) + e + (h + (i + j + k)) + l
  {
    var x := (a + b + c) + d;
    assert x + (c + e + f) + g == a + (b + (c + d + c)) + e + (f + g);
    var y := x + (c + e + f) + g;
    assert y + (e + h + i) + j + (k + l) == y + e + (h + (i + j + k)) + l;
  }

  lemma ThreeMembers(a: Member, b: Member, c: Member)
    ensures Render(Object([a, b, c])) == "{" + RenderMember(a) + "," + RenderMember(b) + "," + RenderMember(c) + "}"
  {
    ThreeRendered(a, b, c);
    var ta, tb, tc := RenderMember(a), RenderMember(b), RenderMember(c);
    Flatten6("{", ta, ",", tb, tc, "}");
  }

  lemma Flatten6(a: string, b: string, c: string, d: string, e: string, f: string)
    ensures a + (b + c + d + c + e) + f == a + b + c + d + c + e + f
  {
  }

  lemma RecordText(a: Attempt)
    ensures Render(RecordOf(a)) == Stamp(a) + MemberText(false, "values", a.source) + "}"
  {
    var m1, m2 := Member("timestamp", Raw(Digits(a.begin))), Member("values", Value(a.source));
    assert [m1, m2][1..] == [m2] && [m2][1..] == [];
    var t1, t2 := RenderMember(m1), RenderMember(m2);
    assert RenderMembers([m2]) == [t2];
    assert RenderMembers([m1, m2]) == [t1, t2];
    assert [t1, t2][..1] == [t1];
    assert Join([t1, t2]) == t1 + "," + t2;
    StampText(Digits(a.begin));
    Flatten4("{", t1, ",", t2, "}");
  }

  lemma StampText(d: string)
    ensures "{" + RenderMember(Member("timestamp", Raw(d))) + "," == "{\"timestamp\":" + d + ","
  {
    assert "\"" + "timestamp" + "\":" == "\"timestamp\":";
    assert "{" + "\"timestamp\":" == "{\"timestamp\":";
    assert "{" + ("\"timestamp\":" + d) == "{\"timestamp\":" + d;
  }

  lemma Flatten4(a: string, b: string, c: string, d: string, e: string)
    ensures a + (b + c + d) + e == a + b + c + d + e
  {
  }

  function Stamp(a: Attempt): string { "{\"timestamp\":" + Digits(a.begin) + "," }

  // The most characters an attempt needs beyond the text before it and a separating comma.
  function RecordPeak(a: Attempt): nat {
    |Stamp(a)| + SectionPeak(false, "values", a.source) + 1
  }

  predicate Fits(header: string, b: Batch, a: Attempt) {
    |header| + |Records(b)| + 1 + RecordPeak(a) + 2 < PKTSZ
  }

  // ---------------------------------------------------------- the method

  // The packet stands for b; as long as that is EMPTY, whatever a former life left in it does not matter.
  ghost predicate Holds(p: PacketBuffer, header: string, b: Batch)
    reads p, p.payload
  {
    && p.payload.Length == PKTSZ && 0 <= p.size < PKTSZ
    && p.state == b.state && Sane(b)
    && p.Text() == TextOf(header, b)
    && (!b.state.Empty? ==> p.Valid() && p.started == b.started)
  }

  // The separator and the stamp, which the transaction appends before gathering.
  function Lead(b: Batch, a: Attempt): string { (if b.state.Wrote? then "," else "") + Stamp(a) }

  /** The packet part of plugin_gather.  When the gatherer reports one of its four codes, the packet
      again holds exactly the records committed so far, properly separated and terminated.  Any
      other code is neither committed nor rolled back and leaves a stamp without a record behind. */
  method Collect(p: PacketBuffer, license: string, tid: nat, ghost b: Batch, a: Attempt) returns (code: Code)
    requires Holds(p, Header(license, tid), b) && Open(b) && StartedAt(b, a) <= a.finish
    requires Fits(Header(license, tid), b, a)
    modifies p, p.payload
    ensures p.Valid() && code == Outcome(a.source) && p.kind == old(p.kind)
    ensures code <= EPLUGDOWN ==> Holds(p, Header(license, tid), Advance(b, a))
    ensures code > EPLUGDOWN ==>
              && p.state == Advance(b, a).state
              && p.Text() == Header(license, tid) + Records(b) + Lead(b, a) + (if p.state == Ready then "]}" else "")
  {
    ghost var header := Header(license, tid);
    if p.state == Empty { OpenPacket(p, license, tid); }
    if p.state == Begin { p.started := a.begin; }
    code := Transact(p, header, b, a);
    Close(p, a.finish);
  }

  // plugin.c:169-172: the header replaces whatever the buffer held.
  method OpenPacket(p: PacketBuffer, license: string, tid: nat)
    requires p.Claimed() && |Header(license, tid)| < PKTSZ
    modifies p`size, p`state, p.payload
    ensures p.Valid() && p.state == Begin && p.Text() == Header(license, tid)
  {
    p.Append("{\"license\":\"" + license + "\",\"tid\":" + Digits(tid) + ",\"metrics\":[");
    p.state := Begin;
  }

  // plugin.c:206-215
  method Close(p: PacketBuffer, now: nat)
    requires p.Valid() && p.size + 2 < PKTSZ && p.started <= now
    modifies p`size, p`state, p.payload
    ensures p.Valid()
    ensures p.state == if !Expired(now, p.started) then old(p.state) else if old(p.state) == Wrote then Ready else Done
    ensures p.Text() == old(p.Text()) + (if Expired(now, p.started) && old(p.state) == Wrote then "]}" else "")
  {
    if Expired(now, p.started) {
      if p.state == Wrote {
        p.Append("]}");
        p.state := Ready;
      } else {
        p.state := Done;
      }
    }
  }

  // plugin.c:178-182: mark the rollback point and stamp the record.
  method Stamped(p: PacketBuffer, a: Attempt)
    requires p.Valid() && 0 < p.size && p.size + 1 + |Stamp(a)| < PKTSZ
    modifies p`size, p`rollbackPoint, p.payload
    ensures p.Valid() && p.rollbackPoint == old(p.size) && 0 < p.size && !p.Leads()
    ensures p.Text() == old(p.Text()) + ((if p.state == Wrote then "," else "") + Stamp(a))
  {
    p.Transaction();
    if p.state == Wrote { p.Append(","); }
    p.Append("{\"timestamp\":" + Digits(a.begin) + ",");
    assert p.payload[p.size - 1] == p.Text()[p.size - 1] == ',';
  }

  // plugin.c:178-204: one transaction.
  method Transact(p: PacketBuffer, ghost header: string, ghost b: Batch, a: Attempt) returns (code: Code)
    requires p.Valid() && Sane(b) && Open(b) && header != []
    requires p.state == (if b.state.Wrote? then Wrote else Begin) && p.Text() == header + Records(b)
    requires Fits(header, b, a)
    modifies p`size, p`rollbackPoint, p`state, p.payload
    ensures p.Valid() && code == Outcome(a.source) && p.size + 2 < PKTSZ
    ensures code == ENONE ==> p.state == Wrote && p.Text() == header + Join(RenderElements(b.records + [RecordOf(a)]))
    ensures code != ENONE ==> p.state == old(p.state)
    ensures 0 < code <= EPLUGDOWN ==> p.Text() == header + Records(b)
    ensures code > EPLUGDOWN ==> p.Text() == header + Records(b) + Lead(b, a)
  {
    ghost var base := p.Text();
    Stamped(p, a);
    MemberIsSection(false, "values", a.source);
    code := p.Gather("values", a.source);
    assert p.payload[..|base|] == p.Text()[..|base|] == base;
    Settle(p, code);
    if code == ENONE { RecordAppended(header, b, a); }
  }

  // plugin.c:183-204: commit or roll back, by the code.
  method Settle(p: PacketBuffer, code: Code)
    requires p.Valid() && 0 <= p.rollbackPoint <= p.size && p.size + 1 < PKTSZ
    modifies p`size, p`rollbackPoint, p`state, p.payload
    ensures p.Valid()
    ensures code == ENONE ==> p.Text() == old(p.Text()) + "}" && p.state == (if old(p.state) == Begin then Wrote else old(p.state))
    ensures code != ENONE ==> p.state == old(p.state)
    ensures 0 < code <= EPLUGDOWN ==> p.Text() == old(p.payload[..p.rollbackPoint])
    ensures code > EPLUGDOWN ==> p.Text() == old(p.Text())
  {
    if code == ENONE {
      p.Append("}");
      if p.state == Begin { p.state := Wrote; }
      p.Commit();
    } else if code <= EPLUGDOWN {
      p.Rollback();
    }
  }

  lemma RecordAppended(header: string, b: Batch, a: Attempt)
    requires Sane(b) && Open(b)
    ensures header + Records(b) + Lead(b, a) + MemberText(false, "values", a.source) + "}"
         == header + Join(RenderElements(b.records + [RecordOf(a)]))
  {
    RecordText(a);
    ElementsLast(b.records, RecordOf(a));
    JoinLast(RenderElements(b.records), Render(RecordOf(a)));
    AppendedText(header, Records(b), if b.state.Wrote? then "," else "", Stamp(a), MemberText(false, "values", a.source), "}");
  }

  lemma AppendedText(header: string, records: string, comma: string, stamp: string, values: string, brace: string)
    ensures header + records + (comma + stamp) + values + brace == header + (records + comma + (stamp + values + brace))
  {
  }
}
