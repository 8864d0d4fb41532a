/**
 The out-of-band packets of a plugin: the texts of REGISTER and ALERT packets as they
 are appended, and the JSON documents they are.
 */
module PluginTexts {
  import opened Json
  import opened Decimal

  datatype Status = Up | Down
  datatype Notice = Notice(status: Status, tid: nat)

  // Fixed for the life of the plugin: src/metadata.c and the plugin's own type and address.
  datatype Meta = Meta(license: string, aid: nat, agentType: string, os: string, host: string, ip: string,
                       targetType: string, targetIp: string, hasTargetIp: bool)

  // The fixed text around the number in a REGISTER and an ALERT packet.
  datatype Forms = Forms(registerHead: string, registerTail: string, alertHead: string)

  function FormsOf(m: Meta): Forms {
    Forms(
      "{\"license\":\"" + m.license + "\",\"aid\":" + Digits(m.aid) + ",\"tid\":",
      ",\"agent_type\":\"" + m.agentType + "\",\"target_type\":\"" + m.targetType + "\",\"os\":\"" + m.os +
      "\",\"hostname\":\"" + m.host + "\",\"ip\":\"" + m.ip + "\"" +
      (if m.hasTargetIp then ",\"target_ip\":\"" + m.targetIp + "\"" else "") + "}",
      "{\"license\":\"" + m.license + "\",\"tid\":")
  }

  function RegisterText(f: Forms, tid: nat): string { f.registerHead + Padded(tid) + f.registerTail }

  function AlertText(f: Forms, n: Notice): string {
    f.alertHead + Digits(n.tid) + ",\"status\":\"" + (if n.status.Up? then "up" else "down") + "\"}"
  }

  // A string member, as such and as the packet appends it behind other members.
  function Str(name: string, value: string): Member { Member(name, Raw("\"" + value + "\"")) }

  function Field(name: string, value: string): string { ",\"" + name + "\":\"" + value + "\"" }

  datatype Pair = Pair(name: string, value: string)

  function Strs(pairs: seq<Pair>): seq<Member> {
    if pairs == [] then [] else Strs(pairs[..|pairs| - 1]) + [Str(pairs[|pairs| - 1].name, pairs[|pairs| - 1].value)]
  }

  function Fields(pairs: seq<Pair>): string {
    if pairs == [] then "" else Fields(pairs[..|pairs| - 1]) + Field(pairs[|pairs| - 1].name, pairs[|pairs| - 1].value)
  }

  lemma FieldIsMember(name: string, value: string)
    ensures Field(name, value) == "," + RenderMember(Str(name, value))
  {
    assert ",\"" == "," + "\"" && "\":\"" == "\":" + "\"";
    Quoting(",", "\"", name, "\":", value);
  }

  lemma Quoting(comma: string, quote: string, name: string, colon: string, value: string)
    ensures (comma + quote) + name + (colon + quote) + value + quote == comma + (quote + name + colon + (quote + value + quote))
  {
  }

  // Members followed by string members.
  lemma {:induction false} WithFields(ms: seq<Member>, pairs: seq<Pair>)
    requires ms != []
    ensures Join(RenderMembers(ms + Strs(pairs))) == Join(RenderMembers(ms)) + Fields(pairs)
  {
    if pairs == [] {
      assert ms + Strs(pairs) == ms;
      assert Join(RenderMembers(ms)) + "" == Join(RenderMembers(ms));
    } else {
      var n := |pairs| - 1;
      var before, last := ms + Strs(pairs[..n]), Str(pairs[n].name, pairs[n].value);
      WithFields(ms, pairs[..n]);
      assert ms + Strs(pairs) == before + [last];
      MembersLast(before, last);
      JoinLast(RenderMembers(before), RenderMember(last));
      FieldIsMember(pairs[n].name, pairs[n].value);
    }
  }

  // What a REGISTER packet says of the agent and its target, besides the numbers.
  function MetaPairs(m: Meta): seq<Pair> {
    [Pair("agent_type", m.agentType), Pair("target_type", m.targetType), Pair("os", m.os), Pair("hostname", m.host),
     Pair("ip", m.ip)] + (if m.hasTargetIp then [Pair("target_ip", m.targetIp)] else [])
  }

  lemma FieldsOfFive(a: Pair, b: Pair, c: Pair, d: Pair, e: Pair)
    ensures Fields([a, b, c, d, e]) ==
            Field(a.name, a.value) + Field(b.name, b.value) + Field(c.name, c.value) + Field(d.name, d.value) + Field(e.name, e.value)
  {
    assert [a, b, c, d, e][..4] == [a, b, c, d] && [a, b, c, d][..3] == [a, b, c] && [a, b, c][..2] == [a, b];
    assert [a, b][..1] == [a] && [a][..0] == [];
    assert Fields([a]) == Field(a.name, a.value);
    assert Fields([a, b]) == Fields([a]) + Field(b.name, b.value);
    assert Fields([a, b, c]) == Fields([a, b]) + Field(c.name, c.value);
    assert Fields([a, b, c, d]) == Fields([a, b, c]) + Field(d.name, d.value);
  }

  // Another string value: the quote that closes the one before stands with the next name.
  lemma NextField(text: string, name: string, value: string, head: string)
    requires head == "\"" + (",\"" + name + "\":\"")
    ensures text + head + value + "\"" == (text + "\"") + Field(name, value)
  {
    Requoted(text, "\"", ",\"" + name + "\":\"", value);
  }

  lemma Requoted(text: string, quote: string, head: string, value: string)
    ensures text + (quote + head) + value + quote == (text + quote) + (head + value + quote)
  {
  }

  lemma TailIsFields(m: Meta)
    ensures FormsOf(m).registerTail == Fields(MetaPairs(m)) + "}"
  {
    var t1 := ",\"agent_type\":\"" + m.agentType;
    assert ",\"agent_type\":\"" == ",\"" + "agent_type" + "\":\"";
    var t2 := t1 + "\",\"target_type\":\"" + m.targetType;
    assert "\",\"target_type\":\"" == "\"" + (",\"" + "target_type" + "\":\"");
    NextField(t1, "target_type", m.targetType, "\",\"target_type\":\"");
    var t3 := t2 + "\",\"os\":\"" + m.os;
    assert "\",\"os\":\"" == "\"" + (",\"" + "os" + "\":\"");
    NextField(t2, "os", m.os, "\",\"os\":\"");
    var t4 := t3 + "\",\"hostname\":\"" + m.host;
    assert "\",\"hostname\":\"" == "\"" + (",\"" + "hostname" + "\":\"");
    NextField(t3, "hostname", m.host, "\",\"hostname\":\"");
    var t5 := t4 + "\",\"ip\":\"" + m.ip;
    assert "\",\"ip\":\"" == "\"" + (",\"" + "ip" + "\":\"");
    NextField(t4, "ip", m.ip, "\",\"ip\":\"");
    FiveFields(m, t5 + "\"");
  }

  lemma FiveFields(m: Meta, text: string)
    requires text == Field("agent_type", m.agentType) + Field("target_type", m.targetType) + Field("os", m.os) +
                     Field("hostname", m.host) + Field("ip", m.ip)
    ensures text + (if m.hasTargetIp then ",\"target_ip\":\"" + m.targetIp + "\"" else "") == Fields(MetaPairs(m))
  {
    var five := [Pair("agent_type", m.agentType), Pair("target_type", m.targetType), Pair("os", m.os),
                 Pair("hostname", m.host), Pair("ip", m.ip)];
    FieldsOfFive(five[0], five[1], five[2], five[3], five[4]);
    if m.hasTargetIp {
      var last := Pair("target_ip", m.targetIp);
      assert MetaPairs(m) == five + [last] && (five + [last])[..5] == five;
      assert ",\"target_ip\":\"" == ",\"" + "target_ip" + "\":\"";
    } else {
      assert MetaPairs(m) == five;
    }
  }

  function RegisterDocument(m: Meta, tid: nat): Json {
    Object([Str("license", m.license), Member("aid", Raw(Digits(m.aid))), Member("tid", Raw(Padded(tid)))] + Strs(MetaPairs(m)))
  }

  function AlertDocument(license: string, n: Notice): Json {
    Object([Str("license", license), Member("tid", Raw(Digits(n.tid))), Str("status", if n.status.Up? then "up" else "down")])
  }

  // Three members, the first of which is the license.
  lemma ThreeJoined(license: string, second: string, x: string, third: string, y: string)
    ensures "{" + Join(RenderMembers([Str("license", license), Member(second, Raw(x)), Member(third, Raw(y))])) ==
            "{\"license\":\"" + license + "\",\"" + second + "\":" + x + ",\"" + third + "\":" + y
  {
    var a, b, c := Str("license", license), Member(second, Raw(x)), Member(third, Raw(y));
    ThreeRendered(a, b, c);
    assert "{\"license\":\"" == "{" + "\"" + "license" + "\":" + "\"";
    assert "\",\"" == "\"" + "," + "\"" && ",\"" == "," + "\"";
    Threefold("{", "\"", "license", "\":", license, ",", second, x, third, y);
  }

  lemma Threefold(brace: string, q: string, n: string, colon: string, license: string, comma: string, second: string, x: string,
                  third: string, y: string)
    ensures brace + ((q + n + colon + (q + license + q)) + comma + (q + second + colon + x) + comma + (q + third + colon + y)) ==
            (brace + q + n + colon + q) + license + (q + comma + q) + second + colon + x + (comma + q) + third + colon + y
  {
    var first := q + n + colon + (q + license + q);
    assert brace + first == (brace + q + n + colon + q) + license + q;
    var two := first + comma + (q + second + colon + x);
    assert brace + two == (brace + q + n + colon + q) + license + (q + comma + q) + second + colon + x;
    assert brace + (two + comma + (q + third + colon + y)) == (brace + two) + (comma + q) + third + colon + y;
  }

  /** A REGISTER packet is the JSON object of the license, the agent's number, the tid in twenty columns, and the
      strings that describe agent and target, the target's address only if it has one. */
  lemma RegisterIsDocument(m: Meta, tid: nat)
    ensures RegisterText(FormsOf(m), tid) == Render(RegisterDocument(m, tid))
  {
    var ms := [Str("license", m.license), Member("aid", Raw(Digits(m.aid))), Member("tid", Raw(Padded(tid)))];
    WithFields(ms, MetaPairs(m));
    TailIsFields(m);
    ThreeJoined(m.license, "aid", Digits(m.aid), "tid", Padded(tid));
    HeadText(m.license, Digits(m.aid));
    Enclosed("{", Join(RenderMembers(ms)), Fields(MetaPairs(m)), "}");
  }

  lemma HeadText(license: string, aid: string)
    ensures "{\"license\":\"" + license + "\",\"aid\":" + aid + ",\"tid\":" ==
            "{\"license\":\"" + license + "\",\"" + "aid" + "\":" + aid + ",\"" + "tid" + "\":"
  {
    assert "\",\"aid\":" == "\",\"" + "aid" + "\":" && ",\"tid\":" == ",\"" + "tid" + "\":";
    Spelled("{\"license\":\"" + license, "\",\"", "aid", "\":", aid, ",\"", "tid");
  }

  lemma Spelled(start: string, before: string, name: string, colon: string, value: string, comma: string, name': string)
    ensures start + (before + name + colon) + value + (comma + name' + colon) ==
            start + before + name + colon + value + comma + name' + colon
  {
  }

  lemma Enclosed(a: string, b: string, c: string, d: string)
    ensures a + b + (c + d) == a + (b + c) + d
  {
  }

  /** An ALERT packet is the JSON object of the license, the tid and the status. */
  lemma AlertIsDocument(m: Meta, n: Notice)
    ensures AlertText(FormsOf(m), n) == Render(AlertDocument(m.license, n))
  {
    var status := if n.status.Up? then "up" else "down";
    ThreeJoined(m.license, "tid", Digits(n.tid), "status", "\"" + status + "\"");
    AlertSpelled("{\"license\":\"" + m.license, Digits(n.tid), status);
  }

  lemma AlertSpelled(start: string, tid: string, status: string)
    ensures start + "\",\"tid\":" + tid + ",\"status\":\"" + status + "\"}" ==
            start + "\",\"" + "tid" + "\":" + tid + ",\"" + "status" + "\":" + ("\"" + status + "\"") + "}"
  {
    assert "\",\"tid\":" == "\",\"" + "tid" + "\":" && ",\"status\":\"" == ",\"" + "status" + "\":" + "\"" && "\"}" == "\"" + "}";
    Spelled(start, "\",\"", "tid", "\":", tid, ",\"", "status");
    Quoted(start + ("\",\"" + "tid" + "\":") + tid, ",\"" + "status" + "\":", "\"", status, "}");
  }

  lemma Quoted(start: string, name: string, quote: string, value: string, close: string)
    ensures start + (name + quote) + value + (quote + close) == start + name + (quote + value + quote) + close
  {
  }
}
