/**
 A plugin's identity outlives the agent: on registration its type and module are
 written to a file named by its tid, and at the next start the files are matched
 against the configured plugins.
 */
module Identity {
  import opened Decimal
  import opened Util

  type Bytes = seq<Byte>

  datatype Option<T> = None | Some(value: T)

  const INT_MAX1 := 0x8000_0000

  // ----------------------------------------------------- numbers in files

  // An int as it lies in memory: four bytes, lowest first.
  function PutInt(n: nat): (b: Bytes)
    requires n < INT_MAX1
    ensures |b| == 4
  {
    [n % 256, n / 256 % 256, n / 65536 % 256, n / 16777216]
  }

  function GetInt(b: Bytes): nat
    requires |b| == 4
  {
    b[0] as int + 256 * (b[1] as int) + 65536 * (b[2] as int) + 16777216 * (b[3] as int)
  }

  lemma IntRoundTrip(n: nat)
    requires n < INT_MAX1
    ensures GetInt(PutInt(n)) == n
  {
    assert n / 256 / 256 == n / 65536 && n / 65536 / 256 == n / 16777216;
    assert n == n % 256 + 256 * (n / 256);
    assert n / 256 == n / 256 % 256 + 256 * (n / 65536);
    assert n / 65536 == n / 65536 % 256 + 256 * (n / 16777216);
  }

  method ReadTid(name: string) returns (tid: nat)
    ensures tid == ParseTid(name)
  {
    tid := 0;
    for j := 0 to |name|
      invariant tid == ParseTid(name[..j])
    {
      assert name[..j + 1][..j] == name[..j];
      tid := (tid * 10 + DigitValue(name[j])) % TWO64;
    }
    assert name[..|name|] == name;
  }

  // --------------------------------------------------------- the records

  // A registered or configured plugin: its type (a C string), its module's memory, its tid.
  datatype Plugin = Plugin(kind: Bytes, module_: Bytes, tid: nat)

  predicate Storable(p: Plugin) {
    0 !in p.kind && |p.kind| < BFSZ && |p.module_| < INT_MAX1 && p.tid < TWO64
  }

  // plugin.c:125-129: length, type, length, module
  function Record(p: Plugin): Bytes
    requires Storable(p)
  {
    PutInt(|p.kind|) + p.kind + PutInt(|p.module_|) + p.module_
  }

  // A string in memory ends at its first NUL.
  function CString(b: Bytes): Bytes {
    if b == [] || b[0] == 0 then [] else [b[0]] + CString(b[1..])
  }

  lemma {:induction false} CStringWhole(b: Bytes)
    requires 0 !in b
    ensures CString(b) == b
  {
    if b != [] { CStringWhole(b[1..]); }
  }

  // agent.c:63-84: the fields read in order; a short file yields nothing.
  function ReadRecord(b: Bytes): Option<(Bytes, Bytes)> {
    if |b| < 4 || |b| - 4 < GetInt(b[..4]) then None
    else
      var n := GetInt(b[..4]);
      var rest := b[4 + n..];
      if |rest| < 4 || |rest| - 4 < GetInt(rest[..4]) then None
      else Some((CString(b[4..4 + n]), rest[4..4 + GetInt(rest[..4])]))
  }

  /** What was written is read back. */
  lemma RecordRoundTrip(p: Plugin)
    requires Storable(p)
    ensures ReadRecord(Record(p)) == Some((p.kind, p.module_))
  {
    var b, n, m := Record(p), |p.kind|, |p.module_|;
    IntRoundTrip(n);
    IntRoundTrip(m);
    assert b[..4] == PutInt(n);
    assert b[4..4 + n] == p.kind;
    var rest := b[4 + n..];
    assert rest == PutInt(m) + p.module_;
    assert rest[..4] == PutInt(m) && rest[4..4 + m] == p.module_;
    CStringWhole(p.kind);
  }

  /** A file that was not written to its end yields nothing. */
  lemma CutRecordIsRefused(p: Plugin, k: nat)
    requires Storable(p) && k <= |Record(p)|
    ensures ReadRecord(Record(p)[..k]).Some? <==> k == |Record(p)|
  {
    var b, n, m := Record(p), |p.kind|, |p.module_|;
    RecordRoundTrip(p);
    if k == |b| { assert b[..k] == b; }
    if 4 <= k < |b| {
      var c := b[..k];
      IntRoundTrip(n);
      IntRoundTrip(m);
      assert c[..4] == PutInt(n);
      if 4 + n + 4 <= k {
        assert c[4 + n..][..4] == PutInt(m);
      }
    }
  }

  // --------------------------------------------------------- restoration

  // A directory entry: name and contents.
  datatype Entry = Entry(name: string, bytes: Bytes)

  // The module's own comparison, for modules of plugins of one type.
  type Compare = (Bytes, Bytes, Bytes) -> bool

  predicate Matches(same: Compare, p: Plugin, record: (Bytes, Bytes)) {
    p.kind == record.0 && same(p.kind, record.1, p.module_)
  }

  // The first plugin the record belongs to, or the number of plugins.
  function FirstMatch(same: Compare, ps: seq<Plugin>, record: (Bytes, Bytes)): (k: nat)
    ensures k <= |ps| && (forall i :: 0 <= i < k ==> !Matches(same, ps[i], record))
    ensures k < |ps| ==> Matches(same, ps[k], record)
  {
    if ps == [] then 0
    else if Matches(same, ps[0], record) then 0
    else 1 + FirstMatch(same, ps[1..], record)
  }

  function RestoreOne(same: Compare, ps: seq<Plugin>, e: Entry): seq<Plugin> {
    match ReadRecord(e.bytes)
    case None => ps
    case Some(record) =>
      var k := FirstMatch(same, ps, record);
      if k < |ps| then ps[k := ps[k].(tid := ParseTid(e.name))] else ps
  }

  function Restore(same: Compare, ps: seq<Plugin>, entries: seq<Entry>): seq<Plugin> {
    if entries == [] then ps
    else RestoreOne(same, Restore(same, ps, entries[..|entries| - 1]), entries[|entries| - 1])
  }

  // agent.c:87-89
  method FindMatch(same: Compare, plugins: array<Plugin>, record: (Bytes, Bytes)) returns (i: nat)
    ensures i == FirstMatch(same, plugins[..], record)
  {
    i := 0;
    while i < plugins.Length && !(plugins[i].kind == record.0 && same(plugins[i].kind, record.1, plugins[i].module_))
      invariant i <= plugins.Length && forall j :: 0 <= j < i ==> !Matches(same, plugins[j], record)
    {
      i := i + 1;
    }
    ghost var k := FirstMatch(same, plugins[..], record);
    assert k < plugins.Length ==> Matches(same, plugins[k], record);
  }

  // The files that stay in the directory: agent.c:97 removes each one that could be read.
  function Remaining(entries: seq<Entry>): seq<Entry> {
    if entries == [] then []
    else
      var e := entries[|entries| - 1];
      Remaining(entries[..|entries| - 1]) + (if ReadRecord(e.bytes).None? then [e] else [])
  }

  /** agent.c:50-101: the loop over the directory and, inside, over the plugins; files that were read are
      removed. */
  method RestoreAll(same: Compare, plugins: array<Plugin>, entries: seq<Entry>) returns (left: seq<Entry>)
    modifies plugins
    ensures plugins[..] == Restore(same, old(plugins[..]), entries) && left == Remaining(entries)
  {
    ghost var start := plugins[..];
    left := [];
    for n := 0 to |entries|
      invariant plugins[..] == Restore(same, start, entries[..n]) && left == Remaining(entries[..n])
    {
      assert entries[..n + 1][..n] == entries[..n];
      var e := entries[n];
      match ReadRecord(e.bytes)
      case None => left := left + [e];
      case Some(record) =>
        var i := FindMatch(same, plugins, record);
        if i < plugins.Length {
          var tid := ReadTid(e.name);
          plugins[i] := plugins[i].(tid := tid);
        }
    }
    assert entries[..|entries|] == entries;
  }

  // The files that stay are the ones that could not be read, in order.
  lemma {:induction false} UnreadableStay(entries: seq<Entry>, e: Entry)
    ensures e in Remaining(entries) <==> e in entries && ReadRecord(e.bytes).None?
  {
    if entries != [] {
      var before := entries[..|entries| - 1];
      UnreadableStay(before, e);
      assert entries == before + [entries[|entries| - 1]];
    }
  }

  /** Removal makes restoration single-use: a second start before a plugin has registered again restores
      nothing, so its tid is lost. */
  lemma {:induction false} SecondStartFindsNothing(same: Compare, ps: seq<Plugin>, entries: seq<Entry>)
    ensures Restore(same, ps, Remaining(entries)) == ps
    decreases |entries|
  {
    if entries != [] {
      var before, e := entries[..|entries| - 1], entries[|entries| - 1];
      SecondStartFindsNothing(same, ps, before);
      if ReadRecord(e.bytes).None? {
        assert Remaining(entries)[..|Remaining(before)|] == Remaining(before);
      } else {
        assert Remaining(entries) == Remaining(before);
      }
    }
  }

  // ----------------------------------------------- what the files contain

  function FileName(p: Plugin): string { Digits(p.tid) }

  // res/ after the registrations in order; fopen "w+" replaces a file of the same name.
  function WriteAll(regs: seq<Plugin>): map<string, Bytes>
    requires forall i :: 0 <= i < |regs| ==> Storable(regs[i])
  {
    if regs == [] then map[]
    else WriteAll(regs[..|regs| - 1])[FileName(regs[|regs| - 1]) := Record(regs[|regs| - 1])]
  }

  // Nobody registered under the same tid after plugin i.
  predicate Survives(regs: seq<Plugin>, i: nat)
    requires i < |regs|
  {
    forall j :: i < j < |regs| ==> regs[j].tid != regs[i].tid
  }

  lemma SameName(p: Plugin, q: Plugin)
    requires p.tid < TWO64 && q.tid < TWO64 && FileName(p) == FileName(q)
    ensures p.tid == q.tid
  {
    TidRoundTrip(p.tid);
    TidRoundTrip(q.tid);
  }

  ghost predicate AllStorable(regs: seq<Plugin>) { forall i :: 0 <= i < |regs| ==> Storable(regs[i]) }

  // The file of a plugin that nobody displaced.
  lemma {:induction false} FileKept(regs: seq<Plugin>, i: nat)
    requires AllStorable(regs) && i < |regs| && Survives(regs, i)
    ensures FileName(regs[i]) in WriteAll(regs) && WriteAll(regs)[FileName(regs[i])] == Record(regs[i])
  {
    var n := |regs| - 1;
    if i < n {
      var before := regs[..n];
      assert before[i] == regs[i];
      assert Survives(before, i);
      FileKept(before, i);
      if FileName(regs[n]) == FileName(regs[i]) { SameName(regs[i], regs[n]); }
    }
  }

  // Every file belongs to a plugin that nobody displaced.
  lemma {:induction false} FileOwner(regs: seq<Plugin>, name: string) returns (i: nat)
    requires AllStorable(regs) && name in WriteAll(regs)
    ensures i < |regs| && Survives(regs, i) && FileName(regs[i]) == name
  {
    var n := |regs| - 1;
    if FileName(regs[n]) == name {
      i := n;
    } else {
      i := FileOwner(regs[..n], name);
      forall j | i < j < |regs| ensures regs[j].tid != regs[i].tid {
        if j < n { assert regs[..n][j] == regs[j]; }
      }
    }
  }

  // ---------------------------------------------------- regaining the tid

  /** The plugins registered before the restart, `regs` in the order in which they registered, are among those
      configured after it: registration i is that of plugin `own[i]` of the table, whose type and module its
      record fits, and it fits no other.  Plugins of the table that never registered are in nobody's `own`. */
  ghost predicate Corresponds(same: Compare, regs: seq<Plugin>, ps: seq<Plugin>, own: seq<nat>) {
    && |own| == |regs| && AllStorable(regs)
    && (forall i :: 0 <= i < |own| ==> own[i] < |ps|)
    && (forall i, j :: 0 <= i < j < |own| ==> own[i] != own[j])
    && (forall i, j :: 0 <= i < |regs| && 0 <= j < |ps| ==>
          (Matches(same, ps[j], (regs[i].kind, regs[i].module_)) <==> own[i] == j))
  }

  // `entries` lists the directory, in any order.
  ghost predicate Lists(entries: seq<Entry>, files: map<string, Bytes>) {
    && (forall k :: 0 <= k < |entries| ==> entries[k].name in files && entries[k].bytes == files[entries[k].name])
    && (forall name :: name in files ==> exists k :: 0 <= k < |entries| && entries[k].name == name)
  }

  // Type and module of every plugin are those of ps; only tids may differ.
  ghost predicate SameBut(ps: seq<Plugin>, ps': seq<Plugin>) {
    |ps'| == |ps| && forall i :: 0 <= i < |ps| ==> ps'[i] == ps[i].(tid := ps'[i].tid)
  }

  // The file of registration i restores its plugin and nobody else.
  lemma RestoreOwn(same: Compare, regs: seq<Plugin>, ps: seq<Plugin>, own: seq<nat>, now: seq<Plugin>, e: Entry, i: nat)
    requires Corresponds(same, regs, ps, own) && SameBut(ps, now) && i < |regs|
    requires e == Entry(FileName(regs[i]), Record(regs[i]))
    ensures RestoreOne(same, now, e) == now[own[i] := now[own[i]].(tid := regs[i].tid)]
  {
    RecordRoundTrip(regs[i]);
    TidRoundTrip(regs[i].tid);
    var record := (regs[i].kind, regs[i].module_);
    forall j | 0 <= j < |now| ensures Matches(same, now[j], record) <==> own[i] == j {
      assert Matches(same, ps[j], record) <==> own[i] == j;
      assert now[j] == ps[j].(tid := now[j].tid);
    }
  }

  ghost predicate Listed(entries: seq<Entry>, p: Plugin) {
    Storable(p) && exists k :: 0 <= k < |entries| && entries[k] == Entry(FileName(p), Record(p))
  }

  // The entries restored exactly the plugins whose files are among them.
  ghost predicate RestoredSoFar(regs: seq<Plugin>, ps: seq<Plugin>, own: seq<nat>, entries: seq<Entry>, now: seq<Plugin>)
    requires |own| == |regs| && forall i :: 0 <= i < |own| ==> own[i] < |ps|
  {
    && SameBut(ps, now)
    && (forall i :: 0 <= i < |regs| ==> now[own[i]].tid == if Listed(entries, regs[i]) then regs[i].tid else ps[own[i]].tid)
    && (forall j :: 0 <= j < |ps| && j !in own ==> now[j] == ps[j])
  }

  lemma {:induction false} RestoreProgress(same: Compare, regs: seq<Plugin>, ps: seq<Plugin>, own: seq<nat>, entries: seq<Entry>)
    requires Corresponds(same, regs, ps, own)
    requires forall k :: 0 <= k < |entries| ==> entries[k].name in WriteAll(regs) && entries[k].bytes == WriteAll(regs)[entries[k].name]
    ensures RestoredSoFar(regs, ps, own, entries, Restore(same, ps, entries))
  {
    if entries != [] {
      var n := |entries| - 1;
      var before, e := entries[..n], entries[n];
      RestoreProgress(same, regs, ps, own, before);
      var now := Restore(same, ps, before);
      var i := FileOwner(regs, e.name);
      FileKept(regs, i);
      RestoreOwn(same, regs, ps, own, now, e, i);
      forall j | 0 <= j < |regs| ensures Listed(entries, regs[j]) <==> Listed(before, regs[j]) || j == i {
        ListedStep(same, regs, ps, own, entries, e, i, j);
      }
    }
  }

  // Different registrations have different records.
  lemma RecordsDiffer(same: Compare, regs: seq<Plugin>, ps: seq<Plugin>, own: seq<nat>, i: nat, j: nat)
    requires Corresponds(same, regs, ps, own) && i < |regs| && j < |regs| && Record(regs[i]) == Record(regs[j])
    ensures i == j
  {
    RecordRoundTrip(regs[i]);
    RecordRoundTrip(regs[j]);
    assert Matches(same, ps[own[j]], (regs[j].kind, regs[j].module_));
    assert Matches(same, ps[own[j]], (regs[i].kind, regs[i].module_)) <==> own[i] == own[j];
  }

  lemma ListedStep(same: Compare, regs: seq<Plugin>, ps: seq<Plugin>, own: seq<nat>, entries: seq<Entry>, e: Entry, i: nat, j: nat)
    requires Corresponds(same, regs, ps, own) && i < |regs| && j < |regs| && entries != [] && e == entries[|entries| - 1]
    requires e == Entry(FileName(regs[i]), Record(regs[i]))
    ensures Listed(entries, regs[j]) <==> Listed(entries[..|entries| - 1], regs[j]) || j == i
  {
    var before := entries[..|entries| - 1];
    assert forall k :: 0 <= k < |before| ==> before[k] == entries[k];
    if Listed(entries, regs[j]) && !Listed(before, regs[j]) {
      var k :| 0 <= k < |entries| && entries[k] == Entry(FileName(regs[j]), Record(regs[j]));
      assert k == |before|;
      RecordsDiffer(same, regs, ps, own, i, j);
    }
    if Listed(before, regs[j]) {
      var k :| 0 <= k < |before| && before[k] == Entry(FileName(regs[j]), Record(regs[j]));
      assert entries[k] == before[k];
    }
  }

  // A plugin's file is in the directory iff nobody took its name afterwards.
  lemma ListedIffSurvives(same: Compare, regs: seq<Plugin>, ps: seq<Plugin>, own: seq<nat>, entries: seq<Entry>, i: nat)
    requires Corresponds(same, regs, ps, own) && Lists(entries, WriteAll(regs)) && i < |regs|
    ensures Listed(entries, regs[i]) <==> Survives(regs, i)
  {
    if Survives(regs, i) {
      FileKept(regs, i);
    }
    if Listed(entries, regs[i]) {
      var k :| 0 <= k < |entries| && entries[k] == Entry(FileName(regs[i]), Record(regs[i]));
      var owner := FileOwner(regs, entries[k].name);
      FileKept(regs, owner);
      RecordsDiffer(same, regs, ps, own, owner, i);
    }
  }

  /** After a restart, whatever the order of the directory, of the registrations and of the table, a plugin
      that had registered has its own tid again iff no plugin registered later under the same tid; otherwise
      it has none and registers anew.  A plugin that had not registered is left as it was. */
  lemma IdentitySurvives(same: Compare, regs: seq<Plugin>, ps: seq<Plugin>, own: seq<nat>, entries: seq<Entry>)
    requires Corresponds(same, regs, ps, own) && Lists(entries, WriteAll(regs))
    requires forall j :: 0 <= j < |ps| ==> ps[j].tid == 0
    ensures var after := Restore(same, ps, entries);
            && |after| == |ps|
            && (forall i :: 0 <= i < |regs| ==>
                  after[own[i]] == ps[own[i]].(tid := if Survives(regs, i) then regs[i].tid else 0))
            && (forall j :: 0 <= j < |ps| && j !in own ==> after[j] == ps[j])
  {
    RestoreProgress(same, regs, ps, own, entries);
    forall i | 0 <= i < |regs| ensures Listed(entries, regs[i]) <==> Survives(regs, i) {
      ListedIffSurvives(same, regs, ps, own, entries, i);
    }
  }

  // --------------------------------------------- the modules' comparisons

  // "mysql_ubuntu_1.0"
  const MYSQL: Bytes := [109, 121, 115, 113, 108, 95, 117, 98, 117, 110, 116, 117, 95, 49, 46, 48]

  // mysql_module_t on a 64-bit machine: on, host, user, pass, port, then the connection and its thread id.
  const MYSQL_SIZE := 408

  function MysqlKey(m: Bytes): (Bytes, Bytes, Bytes, Bytes)
    requires |m| == MYSQL_SIZE
  {
    (CString(m[4..132]), CString(m[132..260]), CString(m[260..388]), m[388..392])
  }

  // mysql_module_cmp and os_module_cmp
  function Same(kind: Bytes, written: Bytes, loaded: Bytes): bool {
    if kind == MYSQL then |written| == MYSQL_SIZE == |loaded| && MysqlKey(written) == MysqlKey(loaded) else true
  }

  // strcmp finds no difference: wherever two fields differ, both have ended before.
  ghost predicate SameString(a: Bytes, b: Bytes)
    requires |a| == |b|
  {
    forall p :: 0 <= p < |a| && a[p] != b[p] ==> exists e :: 0 <= e < p && a[e] == b[e] == 0
  }

  lemma {:induction false} SameCString(a: Bytes, b: Bytes)
    requires |a| == |b|
    ensures CString(a) == CString(b) <==> SameString(a, b)
  {
    if a != [] {
      if a[0] != b[0] || a[0] == 0 {
        assert CString(a) == CString(b) <==> a[0] == b[0];
      } else {
        SameCString(a[1..], b[1..]);
        SameStringTail(a, b);
        assert CString(a)[1..] == CString(a[1..]) && CString(b)[1..] == CString(b[1..]);
      }
    }
  }

  lemma SameStringTail(a: Bytes, b: Bytes)
    requires |a| == |b| > 0 && a[0] == b[0] != 0
    ensures SameString(a, b) <==> SameString(a[1..], b[1..])
  {
    var c, d := a[1..], b[1..];
    if SameString(c, d) {
      forall p | 0 <= p < |a| && a[p] != b[p] ensures exists e :: 0 <= e < p && a[e] == b[e] == 0 {
        assert c[p - 1] != d[p - 1];
        var e :| 0 <= e < p - 1 && c[e] == d[e] == 0;
        assert a[e + 1] == b[e + 1] == 0;
      }
    }
    if SameString(a, b) {
      forall p | 0 <= p < |c| && c[p] != d[p] ensures exists e :: 0 <= e < p && c[e] == d[e] == 0 {
        assert a[p + 1] != b[p + 1];
        var e :| 0 <= e < p + 1 && a[e] == b[e] == 0;
        assert c[e - 1] == d[e - 1] == 0;
      }
    }
  }

  /** Two modules name the same database: host, user and password are the same strings, the four bytes of
      the port are equal. */
  ghost predicate SameTarget(a: Bytes, b: Bytes)
    requires |a| == MYSQL_SIZE == |b|
  {
    && SameString(a[4..132], b[4..132]) && SameString(a[132..260], b[132..260]) && SameString(a[260..388], b[260..388])
    && forall p :: 388 <= p < 392 ==> a[p] == b[p]
  }

  /** What the comparison of two mysql modules tells apart, byte by byte. */
  lemma SameIffSameTarget(written: Bytes, loaded: Bytes)
    ensures Same(MYSQL, written, loaded) <==> |written| == MYSQL_SIZE == |loaded| && SameTarget(written, loaded)
  {
    if |written| == MYSQL_SIZE == |loaded| {
      SameCString(written[4..132], loaded[4..132]);
      SameCString(written[132..260], loaded[132..260]);
      SameCString(written[260..388], loaded[260..388]);
      PortBytes(written, loaded);
    }
  }

  lemma PortBytes(a: Bytes, b: Bytes)
    requires |a| == MYSQL_SIZE == |b|
    ensures a[388..392] == b[388..392] <==> forall p :: 388 <= p < 392 ==> a[p] == b[p]
  {
    if a[388..392] == b[388..392] {
      forall p | 388 <= p < 392 ensures a[p] == b[p] { assert a[388..392][p - 388] == b[388..392][p - 388]; }
    }
  }

  /** What changes while the agent runs (the on bit, the connection, its thread id) does not matter. */
  lemma ConnectionStateIgnored(written: Bytes, loaded: Bytes)
    requires |written| == MYSQL_SIZE == |loaded| && written[4..392] == loaded[4..392]
    ensures Same(MYSQL, written, loaded)
  {
    assert written[4..132] == written[4..392][..128] && loaded[4..132] == loaded[4..392][..128];
    assert written[132..260] == written[4..392][128..256] && loaded[132..260] == loaded[4..392][128..256];
    assert written[260..388] == written[4..392][256..384] && loaded[260..388] == loaded[4..392][256..384];
    assert written[388..392] == written[4..392][384..] && loaded[388..392] == loaded[4..392][384..];
  }

  // What a plugin watches: the machine it runs on, or a database.
  ghost predicate SameWatch(p: Plugin, q: Plugin) {
    && p.kind == q.kind
    && (p.kind == MYSQL ==> |p.module_| == MYSQL_SIZE == |q.module_| && SameTarget(p.module_, q.module_))
  }

  lemma MatchesIffSameWatch(p: Plugin, written: Plugin)
    ensures Matches(Same, p, (written.kind, written.module_)) <==> SameWatch(written, p)
  {
    SameIffSameTarget(written.module_, p.module_);
  }

  lemma SameWatchShared(a: Plugin, b: Plugin, c: Plugin)
    requires SameWatch(a, b) && SameWatch(a, c)
    ensures SameWatch(b, c)
  {
    SameIffSameTarget(a.module_, b.module_);
    SameIffSameTarget(a.module_, c.module_);
    SameIffSameTarget(b.module_, c.module_);
  }

  // Registration i is that of plugin own[i] of the table, and no two plugins of the table watch the same.
  ghost predicate Configured(regs: seq<Plugin>, ps: seq<Plugin>, own: seq<nat>) {
    && |own| == |regs| && AllStorable(regs)
    && (forall i :: 0 <= i < |own| ==> own[i] < |ps| && SameWatch(regs[i], ps[own[i]]))
    && (forall i, j :: 0 <= i < j < |own| ==> own[i] != own[j])
    && (forall i, j :: 0 <= i < |ps| && 0 <= j < |ps| && i != j ==> !SameWatch(ps[i], ps[j]))
  }

  /** Configured plugins that differ in type, or in the host, user, password or port of their database, are told
      apart by the records of whichever of them registered, in whatever order. */
  lemma DistinctKeys(regs: seq<Plugin>, ps: seq<Plugin>, own: seq<nat>)
    requires Configured(regs, ps, own)
    ensures Corresponds(Same, regs, ps, own)
  {
    forall i, j | 0 <= i < |regs| && 0 <= j < |ps|
      ensures Matches(Same, ps[j], (regs[i].kind, regs[i].module_)) <==> own[i] == j
    {
      MatchesIffSameWatch(ps[j], regs[i]);
      if SameWatch(regs[i], ps[j]) && own[i] != j { SameWatchShared(regs[i], ps[own[i]], ps[j]); }
    }
  }

  /** So each regains its own tid after a restart, unless somebody registered later under the same one. */
  lemma WatchersRegainTheirTids(regs: seq<Plugin>, ps: seq<Plugin>, own: seq<nat>, entries: seq<Entry>)
    requires Configured(regs, ps, own) && Lists(entries, WriteAll(regs))
    requires forall j :: 0 <= j < |ps| ==> ps[j].tid == 0
    ensures var after := Restore(Same, ps, entries);
            && |after| == |ps|
            && (forall i :: 0 <= i < |regs| ==>
                  after[own[i]] == ps[own[i]].(tid := if Survives(regs, i) then regs[i].tid else 0))
            && (forall j :: 0 <= j < |ps| && j !in own ==> after[j] == ps[j])
  {
    DistinctKeys(regs, ps, own);
    IdentitySurvives(Same, regs, ps, own, entries);
  }

  lemma PortsDiffer(a: Plugin, b: Plugin)
    requires a.kind == b.kind == MYSQL && |a.module_| == |b.module_| == MYSQL_SIZE
    requires a.module_[388..392] != b.module_[388..392]
    ensures !SameWatch(a, b)
  {
    PortBytes(a.module_, b.module_);
  }

  lemma PairConfigured(first: Plugin, second: Plugin, a: Plugin, b: Plugin, own: seq<nat>)
    requires (own == [0, 1] && SameWatch(first, a) && SameWatch(second, b)) ||
             (own == [1, 0] && SameWatch(first, b) && SameWatch(second, a))
    requires Storable(first) && Storable(second) && !SameWatch(a, b) && !SameWatch(b, a)
    ensures Configured([first, second], [a, b], own)
  {
  }

  /** Two databases that differ in the port are different targets, whatever else they share: of two plugins that
      watch them, whichever registered first, each regains its own tid. */
  lemma PortTellsApart(a: Plugin, b: Plugin, first: Plugin, second: Plugin, swapped: bool, entries: seq<Entry>)
    requires a.kind == b.kind == MYSQL && |a.module_| == |b.module_| == MYSQL_SIZE && a.tid == b.tid == 0
    requires a.module_[388..392] != b.module_[388..392]
    requires SameWatch(first, if swapped then b else a) && SameWatch(second, if swapped then a else b)
    requires Storable(first) && Storable(second) && first.tid != second.tid
    requires Lists(entries, WriteAll([first, second]))
    ensures Restore(Same, [a, b], entries) ==
            [a.(tid := if swapped then second.tid else first.tid), b.(tid := if swapped then first.tid else second.tid)]
  {
    var ps, regs, own := [a, b], [first, second], if swapped then [1, 0] else [0, 1];
    PortsDiffer(a, b);
    PortsDiffer(b, a);
    PairConfigured(first, second, a, b, own);
    PairRestored(regs, ps, own, entries);
  }

  lemma PairRestored(regs: seq<Plugin>, ps: seq<Plugin>, own: seq<nat>, entries: seq<Entry>)
    requires |regs| == |ps| == 2 && (own == [0, 1] || own == [1, 0]) && regs[0].tid != regs[1].tid
    requires Configured(regs, ps, own) && Lists(entries, WriteAll(regs)) && ps[0].tid == ps[1].tid == 0
    ensures Restore(Same, ps, entries) == [ps[0].(tid := regs[own[0]].tid), ps[1].(tid := regs[own[1]].tid)]
  {
    WatchersRegainTheirTids(regs, ps, own, entries);
    var after := Restore(Same, ps, entries);
    assert Survives(regs, 0) && Survives(regs, 1);
    assert after[own[0]] == ps[own[0]].(tid := regs[0].tid) && after[own[1]] == ps[own[1]].(tid := regs[1].tid);
  }
}
