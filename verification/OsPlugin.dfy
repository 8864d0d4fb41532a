/**
 The operating system plugin's tables: network interfaces column by column with their
 totals, and the process sections, any of which may be missing.
 */
module OsPlugin {
  import opened Decimal
  import opened Json
  import opened Gatherers
  import opened Packets

  // ------------------------------------------------------ specification

  datatype Interface = Interface(name: string, iByte: nat, iPckt: nat, iErr: nat, oByte: nat, oPckt: nat, oErr: nat)

  function Sum(xs: seq<nat>): nat { if xs == [] then 0 else Sum(xs[..|xs| - 1]) + xs[|xs| - 1] }

  function Quoted(names: seq<string>): seq<Json> { seq(|names|, i requires 0 <= i < |names| => Raw("\"" + names[i] + "\"")) }
  function Numbers(xs: seq<nat>): seq<Json> { seq(|xs|, i requires 0 <= i < |xs| => Raw(Digits(xs[i]))) }

  function IBytes(ifs: seq<Interface>): seq<nat> { seq(|ifs|, i requires 0 <= i < |ifs| => ifs[i].iByte) }
  function OBytes(ifs: seq<Interface>): seq<nat> { seq(|ifs|, i requires 0 <= i < |ifs| => ifs[i].oByte) }
  function IPckts(ifs: seq<Interface>): seq<nat> { seq(|ifs|, i requires 0 <= i < |ifs| => ifs[i].iPckt) }
  function OPckts(ifs: seq<Interface>): seq<nat> { seq(|ifs|, i requires 0 <= i < |ifs| => ifs[i].oPckt) }
  function IErrs(ifs: seq<Interface>): seq<nat> { seq(|ifs|, i requires 0 <= i < |ifs| => ifs[i].iErr) }
  function OErrs(ifs: seq<Interface>): seq<nat> { seq(|ifs|, i requires 0 <= i < |ifs| => ifs[i].oErr) }
  function Names(ifs: seq<Interface>): seq<string> { seq(|ifs|, i requires 0 <= i < |ifs| => ifs[i].name) }

  /** One array per column, each with exactly one entry per interface in the same order, and two totals. */
  function NetworkMembers(ifs: seq<Interface>): seq<Member> {
    [ Member("name", Array(Quoted(Names(ifs)))),
      Member("i_byte", Array(Numbers(IBytes(ifs)))),
      Member("o_byte", Array(Numbers(OBytes(ifs)))),
      Member("i_pckt", Array(Numbers(IPckts(ifs)))),
      Member("o_pckt", Array(Numbers(OPckts(ifs)))),
      Member("i_err", Array(Numbers(IErrs(ifs)))),
      Member("o_err", Array(Numbers(OErrs(ifs)))),
      Member("i_tot", Raw(Digits(Sum(IBytes(ifs)) % TWO64))),
      Member("o_tot", Raw(Digits(Sum(OBytes(ifs)) % TWO64))) ]
  }

  function MembersText(ms: seq<Member>): string { Join(RenderMembers(ms)) }

  // The text of one more member.
  lemma MembersTextLast(ms: seq<Member>, k: nat)
    requires k < |ms|
    ensures MembersText(ms[..k + 1]) == MembersText(ms[..k]) + (if k == 0 then "" else ",") + RenderMember(ms[k])
  {
    assert ms[..k + 1] == ms[..k] + [ms[k]];
    MembersLast(ms[..k], ms[k]);
    JoinLast(RenderMembers(ms[..k]), RenderMember(ms[k]));
  }

  lemma {:induction false} MembersTextGrows(ms: seq<Member>, k: nat)
    requires k <= |ms|
    ensures |MembersText(ms[..k])| <= |MembersText(ms)|
    decreases |ms| - k
  {
    if k == |ms| {
      assert ms[..k] == ms;
    } else {
      MembersTextLast(ms, k);
      MembersTextGrows(ms, k + 1);
    }
  }

  // ------------------------------------------------------------ appending

  function ListText(elems: seq<Json>): string { Join(RenderElements(elems)) }

  lemma ListTextLast(elems: seq<Json>, k: nat)
    requires k < |elems|
    ensures ListText(elems[..k + 1]) == ListText(elems[..k]) + (if k == 0 then "" else ",") + Render(elems[k])
  {
    assert elems[..k + 1] == elems[..k] + [elems[k]];
    ElementsLast(elems[..k], elems[k]);
    JoinLast(RenderElements(elems[..k]), Render(elems[k]));
  }

  lemma {:induction false} ListTextGrows(elems: seq<Json>, k: nat)
    requires k <= |elems|
    ensures |ListText(elems[..k])| <= |ListText(elems)|
    decreases |elems| - k
  {
    if k == |elems| {
      assert elems[..k] == elems;
    } else {
      ListTextLast(elems, k);
      ListTextGrows(elems, k + 1);
    }
  }

  // for(int i=0; i<k; i++) packet_append(pkt, "%s...", i?",":"", ...)
  method AppendList(p: PacketBuffer, elems: seq<Json>)
    requires p.Valid() && p.size + |ListText(elems)| < PKTSZ
    modifies p`size, p.payload
    ensures p.Valid() && p.Text() == old(p.Text()) + ListText(elems)
  {
    ghost var base := p.Text();
    assert elems[..0] == [];
    for i := 0 to |elems|
      invariant p.Valid() && p.Text() == base + ListText(elems[..i])
    {
      ListTextLast(elems, i);
      ListTextGrows(elems, i + 1);
      p.Append((if i == 0 then "" else ",") + Render(elems[i]));
    }
    assert elems[..|elems|] == elems;
  }

  /** One column: its name, and an array of its entries. */
  method AppendColumn(p: PacketBuffer, lead: bool, name: string, elems: seq<Json>)
    requires p.Valid() && p.size + 1 + |RenderMember(Member(name, Array(elems)))| < PKTSZ
    modifies p`size, p.payload
    ensures p.Valid() && p.Text() == old(p.Text()) + ((if lead then "," else "") + RenderMember(Member(name, Array(elems))))
  {
    var head := (if lead then "," else "") + "\"" + name + "\":[";
    ColumnText(lead, name, ListText(elems));
    p.Append(head);
    AppendList(p, elems);
    p.Append("]");
  }

  lemma ColumnText(lead: bool, name: string, list: string)
    ensures ((if lead then "," else "") + "\"" + name + "\":[") + list + "]"
         == (if lead then "," else "") + ("\"" + name + "\":" + ("[" + list + "]"))
  {
    assert "\":[" == "\":" + "[";
  }

  // ------------------------------------------------------------- network

  // Member k of ms follows the k members already in the buffer.
  method AppendArray(p: PacketBuffer, ghost base: string, ghost ms: seq<Member>, k: nat, name: string, elems: seq<Json>)
    requires p.Valid() && k < |ms| && p.Text() == base + MembersText(ms[..k])
    requires ms[k] == Member(name, Array(elems)) && |base| + 1 + |MembersText(ms)| < PKTSZ
    modifies p`size, p.payload
    ensures p.Valid() && p.Text() == base + MembersText(ms[..k + 1])
  {
    MembersTextLast(ms, k);
    MembersTextGrows(ms, k + 1);
    AppendColumn(p, k > 0, name, elems);
    Flat(base, MembersText(ms[..k]), if k == 0 then "" else ",", RenderMember(ms[k]));
  }

  method AppendNumber(p: PacketBuffer, ghost base: string, ghost ms: seq<Member>, k: nat, name: string, n: nat)
    requires p.Valid() && 0 < k < |ms| && p.Text() == base + MembersText(ms[..k])
    requires ms[k] == Member(name, Raw(Digits(n))) && |base| + 1 + |MembersText(ms)| < PKTSZ
    modifies p`size, p.payload
    ensures p.Valid() && p.Text() == base + MembersText(ms[..k + 1])
  {
    MembersTextLast(ms, k);
    MembersTextGrows(ms, k + 1);
    p.Append("," + ("\"" + name + "\":" + Digits(n)));
    Flat(base, MembersText(ms[..k]), ",", RenderMember(ms[k]));
  }

  lemma Flat(a: string, b: string, c: string, d: string)
    ensures a + b + (c + d) == a + (b + c + d)
  {
  }

  lemma WrapAdd(a: nat, b: nat)
    ensures (a % TWO64 + b) % TWO64 == (a + b) % TWO64
  {
    var q := a / TWO64;
    assert a == q * TWO64 + a % TWO64;
    WrapMultiple(a % TWO64 + b, q);
  }

  lemma {:induction false} WrapMultiple(x: nat, q: nat)
    ensures (q * TWO64 + x) % TWO64 == x % TWO64
    decreases q
  {
    if q > 0 {
      WrapMultiple(x, q - 1);
      assert q * TWO64 + x == (q - 1) * TWO64 + x + TWO64;
    }
  }

  // i_tot and o_tot are added up in 64 bits while the interfaces are read.
  method Totals(ifs: seq<Interface>) returns (iTot: nat, oTot: nat)
    ensures iTot == Sum(IBytes(ifs)) % TWO64
    ensures oTot == Sum(OBytes(ifs)) % TWO64
  {
    ghost var ins, outs := IBytes(ifs), OBytes(ifs);
    iTot, oTot := 0, 0;
    for k := 0 to |ifs|
      invariant iTot == Sum(ins[..k]) % TWO64 && oTot == Sum(outs[..k]) % TWO64
    {
      assert ins[..k + 1][..k] == ins[..k] && outs[..k + 1][..k] == outs[..k];
      WrapAdd(Sum(ins[..k]), ifs[k].iByte);
      WrapAdd(Sum(outs[..k]), ifs[k].oByte);
      iTot := (iTot + ifs[k].iByte) % TWO64;
      oTot := (oTot + ifs[k].oByte) % TWO64;
    }
    assert ins[..|ifs|] == ins && outs[..|ifs|] == outs;
  }

  /** _os_gather_network: for any number of interfaces the members are the columns and the totals. */
  method GatherNetwork(p: PacketBuffer, ifs: seq<Interface>) returns (code: Code)
    requires p.Valid() && p.size + 1 + |MembersText(NetworkMembers(ifs))| < PKTSZ
    modifies p`size, p.payload
    ensures p.Valid() && (code == ENONE <==> ifs != []) && (code == ENONE || code == ENODATA)
    ensures p.Text() == old(p.Text()) + (if ifs == [] then "" else MembersText(NetworkMembers(ifs)))
  {
    var iTot, oTot := Totals(ifs);
    if |ifs| == 0 { return ENODATA; }
    ghost var ms := NetworkMembers(ifs);
    Counts(p, ms, Quoted(Names(ifs)), Numbers(IBytes(ifs)), Numbers(OBytes(ifs)), Numbers(IPckts(ifs)), Numbers(OPckts(ifs)),
           Numbers(IErrs(ifs)), Numbers(OErrs(ifs)), iTot, oTot);
    code := ENONE;
  }

  method Counts(p: PacketBuffer, ghost ms: seq<Member>, names: seq<Json>, iByte: seq<Json>, oByte: seq<Json>,
                iPckt: seq<Json>, oPckt: seq<Json>, iErr: seq<Json>, oErr: seq<Json>, iTot: nat, oTot: nat)
    requires p.Valid() && p.size + 1 + |MembersText(ms)| < PKTSZ
    requires ms == [Member("name", Array(names)), Member("i_byte", Array(iByte)), Member("o_byte", Array(oByte)),
                    Member("i_pckt", Array(iPckt)), Member("o_pckt", Array(oPckt)), Member("i_err", Array(iErr)),
                    Member("o_err", Array(oErr)), Member("i_tot", Raw(Digits(iTot))), Member("o_tot", Raw(Digits(oTot)))]
    modifies p`size, p.payload
    ensures p.Valid() && p.Text() == old(p.Text()) + MembersText(ms)
  {
    ghost var base := p.Text();
    assert ms[..0] == [] && base + "" == base;
    AppendArray(p, base, ms, 0, "name", names);
    TwoArrays(p, base, ms, 1, "i_byte", iByte, "o_byte", oByte);
    TwoArrays(p, base, ms, 3, "i_pckt", iPckt, "o_pckt", oPckt);
    TwoArrays(p, base, ms, 5, "i_err", iErr, "o_err", oErr);
    AppendNumber(p, base, ms, 7, "i_tot", iTot);
    AppendNumber(p, base, ms, 8, "o_tot", oTot);
    assert ms[..9] == ms;
  }

  method TwoArrays(p: PacketBuffer, ghost base: string, ghost ms: seq<Member>, k: nat, name: string, elems: seq<Json>,
                   name': string, elems': seq<Json>)
    requires p.Valid() && k + 1 < |ms| && p.Text() == base + MembersText(ms[..k])
    requires ms[k] == Member(name, Array(elems)) && ms[k + 1] == Member(name', Array(elems'))
    requires |base| + 1 + |MembersText(ms)| < PKTSZ
    modifies p`size, p.payload
    ensures p.Valid() && p.Text() == base + MembersText(ms[..k + 2])
  {
    AppendArray(p, base, ms, k, name, elems);
    AppendArray(p, base, ms, k + 1, name', elems');
  }

  // ------------------------------------------------------------- processes

  // A line of ps; cpu and mem are the numbers as printed.
  datatype Process = Process(name: string, user: string, count: nat, cpu: string, mem: string)

  // What one ps pipe yields: nothing if it does not open, else some rows.
  datatype Pipe = Unopened | Rows(rows: seq<Process>)

  datatype Column = Column(name: string, elems: seq<Json>)

  function Raws(texts: seq<string>): seq<Json> { seq(|texts|, i requires 0 <= i < |texts| => Raw(texts[i])) }

  function ProcNames(rows: seq<Process>): seq<string> { seq(|rows|, i requires 0 <= i < |rows| => rows[i].name) }
  function Users(rows: seq<Process>): seq<string> { seq(|rows|, i requires 0 <= i < |rows| => rows[i].user) }
  function ProcCounts(rows: seq<Process>): seq<nat> { seq(|rows|, i requires 0 <= i < |rows| => rows[i].count) }
  function Cpus(rows: seq<Process>): seq<string> { seq(|rows|, i requires 0 <= i < |rows| => rows[i].cpu) }
  function Mems(rows: seq<Process>): seq<string> { seq(|rows|, i requires 0 <= i < |rows| => rows[i].mem) }

  // The three sections' columns, each with one entry per row in the same order.
  function CpuColumns(rows: seq<Process>): seq<Column> {
    [Column("name", Quoted(ProcNames(rows))), Column("cpu", Raws(Cpus(rows)))]
  }

  function MemColumns(rows: seq<Process>): seq<Column> {
    [Column("name", Quoted(ProcNames(rows))), Column("mem", Raws(Mems(rows)))]
  }

  function ListColumns(rows: seq<Process>): seq<Column> {
    [ Column("name", Quoted(ProcNames(rows))), Column("user", Quoted(Users(rows))), Column("count", Numbers(ProcCounts(rows))),
      Column("cpu", Raws(Cpus(rows))), Column("mem", Raws(Mems(rows))) ]
  }

  function AsMembers(columns: seq<Column>): (ms: seq<Member>)
    ensures |ms| == |columns| && forall i :: 0 <= i < |ms| ==> ms[i] == Member(columns[i].name, Array(columns[i].elems))
  {
    seq(|columns|, i requires 0 <= i < |columns| => Member(columns[i].name, Array(columns[i].elems)))
  }

  function TableMember(tag: string, columns: seq<Column>): Member { Member(tag, Object(AsMembers(columns))) }

  // A section's member, if it has rows.
  function Section3(list: Pipe): seq<Member> {
    if list.Unopened? || list.rows == [] then [] else [TableMember("list", ListColumns(list.rows))]
  }

  function Section23(mem: Pipe, list: Pipe): seq<Member> {
    if mem.Unopened? then []
    else if mem.rows == [] then Section3(list)
    else [TableMember("mem_top10", MemColumns(mem.rows))] + Section3(list)
  }

  /** The sections gathered: those with rows, up to the first pipe that does not open. */
  function Shown(cpu: Pipe, mem: Pipe, list: Pipe): seq<Member> {
    if cpu.Unopened? then []
    else if cpu.rows == [] then Section23(mem, list)
    else [TableMember("cpu_top10", CpuColumns(cpu.rows))] + Section23(mem, list)
  }

  // Text that members of objects were appended to ends in '}', and an opening in '{'.
  lemma {:induction false} TablesEndInBrace(base: string, ms: seq<Member>)
    requires base != [] && base[|base| - 1] == '{' && forall i :: 0 <= i < |ms| ==> ms[i].value.Object?
    ensures var text := base + MembersText(ms); text[|text| - 1] == (if ms == [] then '{' else '}')
  {
    if ms != [] {
      var n := |ms| - 1;
      MembersTextLast(ms, n);
      assert ms[..n + 1] == ms;
      var last := RenderMember(ms[n]);
      assert last[|last| - 1] == '}';
    } else {
      assert base + "" == base;
    }
  }

  // os.c:232: a comma unless this is the first member, told by the last character.
  method AppendTable(p: PacketBuffer, ghost base: string, ghost ms: seq<Member>, tag: string, columns: seq<Column>)
    requires p.Valid() && p.Text() == base + MembersText(ms) && base != [] && base[|base| - 1] == '{'
    requires forall i :: 0 <= i < |ms| ==> ms[i].value.Object?
    requires |base| + 2 + |MembersText(ms + [TableMember(tag, columns)])| < PKTSZ
    modifies p`size, p.payload
    ensures p.Valid() && p.Text() == base + MembersText(ms + [TableMember(tag, columns)])
  {
    ghost var before, m := p.Text(), TableMember(tag, columns);
    TablesEndInBrace(base, ms);
    assert p.payload[p.size - 1] == before[|before| - 1];
    assert (ms + [m])[..|ms|] == ms && (ms + [m])[..|ms| + 1] == ms + [m];
    MembersTextLast(ms + [m], |ms|);
    Flat(base, MembersText(ms), if ms == [] then "" else ",", RenderMember(m));
    AppendObject(p, p.payload[p.size - 1] != '{', tag, columns);
  }

  // The columns of a table, one after the other, as an object.
  method AppendObject(p: PacketBuffer, lead: bool, tag: string, columns: seq<Column>)
    requires p.Valid() && p.size + 2 + |RenderMember(TableMember(tag, columns))| < PKTSZ
    modifies p`size, p.payload
    ensures p.Valid() && p.Text() == old(p.Text()) + ((if lead then "," else "") + RenderMember(TableMember(tag, columns)))
  {
    ghost var before, ms := p.Text(), AsMembers(columns);
    TableText(lead, tag, ms);
    p.Append((if lead then "," else "") + "\"" + tag + "\":{");
    ghost var inside := p.Text();
    assert ms[..0] == [] && inside + "" == inside;
    for k := 0 to |columns|
      invariant p.Valid() && p.Text() == inside + MembersText(ms[..k])
    {
      AppendArray(p, inside, ms, k, columns[k].name, columns[k].elems);
    }
    assert ms[..|columns|] == ms;
    p.Append("}");
    assert p.Text() == before + (Opening(lead, tag) + MembersText(ms) + "}");
  }

  lemma TableText(lead: bool, tag: string, columns: seq<Member>)
    ensures Opening(lead, tag) + MembersText(columns) + "}" == (if lead then "," else "") + RenderMember(Member(tag, Object(columns)))
  {
    assert "\":{" == "\":" + "{";
  }

  /** _os_gather_proc: whichever sections have rows, they are correctly separated members, and the result is
      ENONE iff there is one. */
  method GatherProc(p: PacketBuffer, cpu: Pipe, mem: Pipe, list: Pipe) returns (code: Code)
    requires p.Valid() && 0 < p.size && p.payload[p.size - 1] == '{'
    requires p.size + 2 + |MembersText(Shown(cpu, mem, list))| < PKTSZ
    modifies p`size, p.payload
    ensures p.Valid() && p.Text() == old(p.Text()) + MembersText(Shown(cpu, mem, list))
    ensures code == (if Shown(cpu, mem, list) == [] then ENODATA else ENONE)
  {
    ghost var base, all := p.Text(), Shown(cpu, mem, list);
    ghost var ms: seq<Member> := [];
    assert base + "" == base;
    if cpu.Unopened? { return ENODATA; }
    if |cpu.rows| > 0 { ms := NextTable(p, base, all, ms, "cpu_top10", CpuColumns(cpu.rows)); }
    var more := GatherMore(p, base, all, ms, mem, list);
    code := if |cpu.rows| > 0 || more then ENONE else ENODATA;
  }

  // os.c:222-269: the second and third section.
  method GatherMore(p: PacketBuffer, ghost base: string, ghost all: seq<Member>, ghost ms: seq<Member>, mem: Pipe, list: Pipe)
    returns (found: bool)
    requires p.Valid() && p.Text() == base + MembersText(ms) && base != [] && base[|base| - 1] == '{'
    requires forall i :: 0 <= i < |ms| ==> ms[i].value.Object?
    requires all == ms + Section23(mem, list) && |base| + 2 + |MembersText(all)| < PKTSZ
    modifies p`size, p.payload
    ensures p.Valid() && p.Text() == base + MembersText(all) && found == (Section23(mem, list) != [])
  {
    ghost var ms := ms;
    if mem.Unopened? { assert all == ms; return false; }
    found := false;
    if |mem.rows| > 0 {
      found := true;
      ms := NextTable(p, base, all, ms, "mem_top10", MemColumns(mem.rows));
    }
    assert all == ms + Section3(list);
    if list.Rows? && |list.rows| > 0 {
      found := true;
      ms := NextTable(p, base, all, ms, "list", ListColumns(list.rows));
    }
    assert all == ms;
  }

  method NextTable(p: PacketBuffer, ghost base: string, ghost all: seq<Member>, ghost ms: seq<Member>, tag: string,
                   columns: seq<Column>) returns (ghost ms': seq<Member>)
    requires p.Valid() && p.Text() == base + MembersText(ms) && base != [] && base[|base| - 1] == '{'
    requires forall i :: 0 <= i < |ms| ==> ms[i].value.Object?
    requires ms + [TableMember(tag, columns)] <= all && |base| + 2 + |MembersText(all)| < PKTSZ
    modifies p`size, p.payload
    ensures ms' == ms + [TableMember(tag, columns)] && p.Valid() && p.Text() == base + MembersText(ms')
  {
    PrefixFits(all, ms, TableMember(tag, columns));
    AppendTable(p, base, ms, tag, columns);
    ms' := ms + [TableMember(tag, columns)];
  }

  lemma PrefixFits(all: seq<Member>, ms: seq<Member>, m: Member)
    requires ms + [m] <= all
    ensures |MembersText(ms + [m])| <= |MembersText(all)|
  {
    MembersTextGrows(all, |ms| + 1);
    assert all[..|ms| + 1] == ms + [m];
  }

  // --------------------------------------------------- reading a table back

  // The column of this name, as a reader of the JSON object finds it.
  function ColumnOf(ms: seq<Member>, name: string): seq<Json> {
    if ms == [] then []
    else if ms[0].name == name then (if ms[0].value.Array? then ms[0].value.elements else [])
    else ColumnOf(ms[1..], name)
  }

  function Text(j: Json): string { if j.Raw? then j.text else "" }

  function Unquoted(j: Json): string { if |Text(j)| < 2 then "" else Text(j)[1..|Text(j)| - 1] }

  function Number(j: Json): nat { ParseTid(Text(j)) }

  lemma {:induction false} ColumnAt(ms: seq<Member>, k: nat)
    requires k < |ms| && ms[k].value.Array? && forall j :: 0 <= j < k ==> ms[j].name != ms[k].name
    ensures ColumnOf(ms, ms[k].name) == ms[k].value.elements
  {
    if k > 0 {
      assert ms[0].name != ms[k].name;
      ColumnAt(ms[1..], k - 1);
    }
  }

  // The interface that entry i of every column describes.
  function ReadInterface(ms: seq<Member>, i: nat): Interface
    requires forall name :: name in COLUMNS ==> i < |ColumnOf(ms, name)|
  {
    Interface(Unquoted(ColumnOf(ms, "name")[i]), Number(ColumnOf(ms, "i_byte")[i]), Number(ColumnOf(ms, "i_pckt")[i]),
              Number(ColumnOf(ms, "i_err")[i]), Number(ColumnOf(ms, "o_byte")[i]), Number(ColumnOf(ms, "o_pckt")[i]),
              Number(ColumnOf(ms, "o_err")[i]))
  }

  const COLUMNS := ["name", "i_byte", "o_byte", "i_pckt", "o_pckt", "i_err", "o_err"]

  lemma NetworkNames(ifs: seq<Interface>, k: nat)
    requires k < 7
    ensures var ms := NetworkMembers(ifs); ms[k].name == COLUMNS[k] && forall j :: 0 <= j < k ==> ms[j].name != ms[k].name
  {
    var i, o := ["i_byte", "i_pckt", "i_err"], ["o_byte", "o_pckt", "o_err"];
    assert forall a, b :: 0 <= a < 3 && 0 <= b < 3 ==> i[a][0] == 'i' && o[b][0] == 'o';
    assert "i_byte"[2] == 'b' && "i_pckt"[2] == 'p' && "o_byte"[2] == 'b' && "o_pckt"[2] == 'p';
  }

  lemma QuotedAt(names: seq<string>, i: nat)
    requires i < |names|
    ensures Unquoted(Quoted(names)[i]) == names[i]
  {
    assert Text(Quoted(names)[i]) == "\"" + names[i] + "\"";
  }

  lemma NumbersAt(xs: seq<nat>, i: nat)
    requires i < |xs| && xs[i] < TWO64
    ensures Number(Numbers(xs)[i]) == xs[i]
  {
    TidRoundTrip(xs[i]);
  }

  predicate Counters64(f: Interface) {
    f.iByte < TWO64 && f.iPckt < TWO64 && f.iErr < TWO64 && f.oByte < TWO64 && f.oPckt < TWO64 && f.oErr < TWO64
  }

  lemma NetworkColumns(ifs: seq<Interface>)
    ensures var ms := NetworkMembers(ifs);
            && ColumnOf(ms, "name") == Quoted(Names(ifs))
            && ColumnOf(ms, "i_byte") == Numbers(IBytes(ifs)) && ColumnOf(ms, "o_byte") == Numbers(OBytes(ifs))
            && ColumnOf(ms, "i_pckt") == Numbers(IPckts(ifs)) && ColumnOf(ms, "o_pckt") == Numbers(OPckts(ifs))
            && ColumnOf(ms, "i_err") == Numbers(IErrs(ifs)) && ColumnOf(ms, "o_err") == Numbers(OErrs(ifs))
  {
    var ms := NetworkMembers(ifs);
    forall k | 0 <= k < 7 ensures ColumnOf(ms, COLUMNS[k]) == ms[k].value.elements {
      NetworkNames(ifs, k);
      ColumnAt(ms, k);
    }
    assert COLUMNS[0] == "name" && COLUMNS[1] == "i_byte" && COLUMNS[2] == "o_byte" && COLUMNS[3] == "i_pckt";
    assert COLUMNS[4] == "o_pckt" && COLUMNS[5] == "i_err" && COLUMNS[6] == "o_err";
  }

  /** Every interface can be read back, field by field, from the entries of its row. */
  lemma NetworkRoundTrip(ifs: seq<Interface>, i: nat)
    requires i < |ifs| && Counters64(ifs[i])
    ensures var ms := NetworkMembers(ifs);
            && (forall k :: 0 <= k < 7 ==> |ColumnOf(ms, COLUMNS[k])| == |ifs|) && ReadInterface(ms, i) == ifs[i]
  {
    NetworkColumns(ifs);
    assert COLUMNS == ["name", "i_byte", "o_byte", "i_pckt", "o_pckt", "i_err", "o_err"];
    QuotedAt(Names(ifs), i);
    NumbersAt(IBytes(ifs), i);
    NumbersAt(IPckts(ifs), i);
    NumbersAt(IErrs(ifs), i);
    NumbersAt(OBytes(ifs), i);
    NumbersAt(OPckts(ifs), i);
    NumbersAt(OErrs(ifs), i);
  }

  // The process that entry i of the columns of a table describes; a table of the top ten lacks some columns.
  function ReadProcess(ms: seq<Member>, i: nat): Process {
    var names, users, counts := ColumnOf(ms, "name"), ColumnOf(ms, "user"), ColumnOf(ms, "count");
    var cpus, mems := ColumnOf(ms, "cpu"), ColumnOf(ms, "mem");
    Process(if i < |names| then Unquoted(names[i]) else "", if i < |users| then Unquoted(users[i]) else "",
            if i < |counts| then Number(counts[i]) else 0, if i < |cpus| then Text(cpus[i]) else "",
            if i < |mems| then Text(mems[i]) else "")
  }

  lemma TopColumns(names: seq<Json>, tag: string, values: seq<Json>)
    requires |tag| == 3
    ensures var ms := AsMembers([Column("name", names), Column(tag, values)]);
            && ColumnOf(ms, "name") == names && ColumnOf(ms, tag) == values
            && forall other :: other != "name" && other != tag ==> ColumnOf(ms, other) == []
  {
    var ms := AsMembers([Column("name", names), Column(tag, values)]);
    assert ms[1..] == [Member(tag, Array(values))] && ms[1..][1..] == [];
    forall other | other != "name" && other != tag ensures ColumnOf(ms, other) == [] {
      assert ColumnOf(ms, other) == ColumnOf(ms[1..], other) == ColumnOf(ms[1..][1..], other);
    }
  }

  lemma ListColumn(rows: seq<Process>, k: nat)
    requires k < 5
    ensures var ms := AsMembers(ListColumns(rows)); ColumnOf(ms, ListColumns(rows)[k].name) == ListColumns(rows)[k].elems
  {
    var ms, cs := AsMembers(ListColumns(rows)), ListColumns(rows);
    assert "name"[0] == 'n' && "user"[0] == 'u' && "cpu"[0] == 'c' && "mem"[0] == 'm';
    assert |cs[2].name| == 5;
    forall j | 0 <= j < k ensures ms[j].name != ms[k].name { }
    ColumnAt(ms, k);
  }

  /** Every process can be read back: all of it from the list, its name and share from the tables of the top ten. */
  lemma ProcessRoundTrip(rows: seq<Process>, i: nat)
    requires i < |rows| && rows[i].count < TWO64
    ensures ReadProcess(AsMembers(ListColumns(rows)), i) == rows[i]
    ensures ReadProcess(AsMembers(CpuColumns(rows)), i) == Process(rows[i].name, "", 0, rows[i].cpu, "")
    ensures ReadProcess(AsMembers(MemColumns(rows)), i) == Process(rows[i].name, "", 0, "", rows[i].mem)
  {
    ListColumn(rows, 0);
    ListColumn(rows, 1);
    ListColumn(rows, 2);
    ListColumn(rows, 3);
    ListColumn(rows, 4);
    QuotedAt(ProcNames(rows), i);
    QuotedAt(Users(rows), i);
    NumbersAt(ProcCounts(rows), i);
    TopColumns(Quoted(ProcNames(rows)), "cpu", Raws(Cpus(rows)));
    TopColumns(Quoted(ProcNames(rows)), "mem", Raws(Mems(rows)));
    assert "cpu"[0] != "mem"[0];
  }
}
