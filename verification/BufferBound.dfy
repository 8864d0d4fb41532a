/**
 A packet's whole life: how many gathers it can see before it expires, why no
 append is ever truncated, and what its payload is when it is handed to storage.
 */
module BufferBound {
  import opened PacketTypes
  import opened Json
  import opened Gatherers
  import opened Packets
  import opened Gathering

  /** Gathers by one thread: a clock that never goes back, and starts at least d milliseconds apart. */
  ghost predicate Spaced(attempts: seq<Attempt>, d: nat) {
    && d > 0
    && (forall i :: 0 <= i < |attempts| ==> attempts[i].begin <= attempts[i].finish)
    && (forall i, j :: 0 <= i < j < |attempts| ==> attempts[i].finish <= attempts[j].begin)
    && (forall i :: 0 < i < |attempts| ==> attempts[i - 1].begin + d <= attempts[i].begin)
  }

  /** The packet after `attempts`; once closed it sees no more of them. */
  ghost function Fill(attempts: seq<Attempt>, d: nat): (b: Batch)
    requires Spaced(attempts, d)
    ensures Sane(b)
    ensures attempts != [] ==> b.started <= attempts[|attempts| - 1].begin
    ensures Open(b) && attempts != [] ==> attempts[|attempts| - 1].finish - b.started < 7000
    decreases |attempts|
  {
    if attempts == [] then FRESH
    else
      var b, a := Fill(attempts[..|attempts| - 1], d), attempts[|attempts| - 1];
      if Open(b) then (ExpiredAfter7s(a.finish, StartedAt(b, a)); Advance(b, a)) else b
  }

  // The records of the attempts that gathered something.
  function Committed(attempts: seq<Attempt>): seq<Json> {
    if attempts == [] then []
    else
      var a := attempts[|attempts| - 1];
      Committed(attempts[..|attempts| - 1]) + (if Outcome(a.source) == ENONE then [RecordOf(a)] else [])
  }

  // The packet was still open before each of the attempts.
  ghost predicate OpenThrough(attempts: seq<Attempt>, d: nat)
    requires Spaced(attempts, d)
    decreases |attempts|
  {
    attempts != [] ==>
      var before := attempts[..|attempts| - 1];
      OpenThrough(before, d) && Open(Fill(before, d))
  }

  /** The packet holds exactly the records committed by its attempts, in order. */
  lemma {:induction false} FillCommitted(attempts: seq<Attempt>, d: nat)
    requires Spaced(attempts, d) && OpenThrough(attempts, d)
    ensures Fill(attempts, d).records == Committed(attempts)
    decreases |attempts|
  {
    if attempts != [] { FillCommitted(attempts[..|attempts| - 1], d); }
  }

  lemma OneMore(attempts: seq<Attempt>, d: nat, used: nat)
    requires Spaced(attempts, d) && used < |attempts|
    ensures Spaced(attempts[..used], d) && Spaced(attempts[..used + 1], d)
    ensures var b, a := Fill(attempts[..used], d), attempts[used];
            Open(b) ==> StartedAt(b, a) <= a.finish && Fill(attempts[..used + 1], d) == Advance(b, a)
    ensures OpenThrough(attempts[..used], d) && Open(Fill(attempts[..used], d)) ==> OpenThrough(attempts[..used + 1], d)
  {
    assert attempts[..used + 1][..used] == attempts[..used];
  }

  function CeilDiv(n: nat, d: nat): nat
    requires d > 0
  {
    (n + d - 1) / d
  }

  lemma CeilBound(n: nat, d: nat, k: nat)
    requires d > 0 && k * d < n
    ensures k < CeilDiv(n, d)
  {
    var q := CeilDiv(n, d);
    assert n + d - 1 == d * q + (n + d - 1) % d;
    assert k * d < q * d;
    if q <= k { MulMonotone(q, k, d); }
  }

  lemma MulMonotone(a: nat, b: nat, d: nat)
    requires a <= b
    ensures a * d <= b * d
  {
  }

  lemma {:induction false} StartsApart(attempts: seq<Attempt>, d: nat, i: nat, j: nat)
    requires Spaced(attempts, d) && i <= j < |attempts|
    ensures attempts[i].begin + (j - i) * d <= attempts[j].begin
    decreases j - i
  {
    if i < j {
      StartsApart(attempts, d, i, j - 1);
      assert (j - i) * d == (j - 1 - i) * d + d;
    }
  }

  // The first attempt that gathered something, or the number of attempts.
  function FirstGathered(attempts: seq<Attempt>): (f: nat)
    ensures f <= |attempts| && (forall j :: 0 <= j < f ==> Outcome(attempts[j].source) != ENONE)
    ensures f < |attempts| ==> Outcome(attempts[f].source) == ENONE
  {
    if attempts == [] then 0
    else
      var n := |attempts| - 1;
      var f := FirstGathered(attempts[..n]);
      if f < n then f else if Outcome(attempts[n].source) == ENONE then n else n + 1
  }

  // The attempt whose start dates the packet: the first that gathered, or else the last.
  function DatedBy(attempts: seq<Attempt>): nat
    requires attempts != []
  {
    if FirstGathered(attempts) < |attempts| then FirstGathered(attempts) else |attempts| - 1
  }

  lemma {:induction false} CommittedSome(attempts: seq<Attempt>)
    ensures Committed(attempts) != [] <==> FirstGathered(attempts) < |attempts|
    ensures |Committed(attempts)| <= |attempts| - FirstGathered(attempts)
  {
    if attempts != [] { CommittedSome(attempts[..|attempts| - 1]); }
  }

  /** What a packet is after its attempts, all of which it saw open: dated by the first that gathered something (while
      there is none, by the last), it is closed iff that was 7 s or more ago, READY or WROTE iff there is one. */
  lemma {:induction false} FillExactly(attempts: seq<Attempt>, d: nat)
    requires Spaced(attempts, d) && OpenThrough(attempts, d) && attempts != []
    ensures var b, started := Fill(attempts, d), attempts[DatedBy(attempts)].begin;
            var closed, some := attempts[|attempts| - 1].finish - started >= 7000, FirstGathered(attempts) < |attempts|;
            b.started == started && b.state == if closed then if some then Ready else Done else if some then Wrote else Begin
    decreases |attempts|
  {
    var n := |attempts| - 1;
    var before, a := attempts[..n], attempts[n];
    var b := Fill(before, d);
    if before != [] { FillExactly(before, d); }
    DatedOn(attempts, b);
    AdvanceExactly(b, a);
  }

  // What one more attempt makes of the date.
  lemma DatedOn(attempts: seq<Attempt>, b: Batch)
    requires attempts != []
    requires var before := attempts[..|attempts| - 1];
             && (b.state.Wrote? <==> FirstGathered(before) < |before|)
             && (before != [] ==> b.started == before[DatedBy(before)].begin)
    ensures var a := attempts[|attempts| - 1];
            && StartedAt(b, a) == attempts[DatedBy(attempts)].begin
            && (FirstGathered(attempts) < |attempts| <==> b.state.Wrote? || Outcome(a.source) == ENONE)
  {
  }

  lemma AdvanceExactly(b: Batch, a: Attempt)
    requires Open(b) && StartedAt(b, a) <= a.finish
    ensures var closed, some := a.finish - StartedAt(b, a) >= 7000, b.state.Wrote? || Outcome(a.source) == ENONE;
            var state := if closed then if some then Ready else Done else if some then Wrote else Begin;
            Advance(b, a).started == StartedAt(b, a) && Advance(b, a).state == state
  {
    ExpiredAfter7s(a.finish, StartedAt(b, a));
  }

  lemma {:induction false} OpenIsOpenThrough(attempts: seq<Attempt>, d: nat)
    requires Spaced(attempts, d) && Open(Fill(attempts, d))
    ensures OpenThrough(attempts, d)
    decreases |attempts|
  {
    if attempts != [] { OpenIsOpenThrough(attempts[..|attempts| - 1], d); }
  }

  /** A packet that holds records has seen at most ceil(7000/d) gathers since the first that gave it one (the next
      may be its last), so it holds at most that many records. */
  lemma GathersBound(attempts: seq<Attempt>, d: nat) returns (f: nat)
    requires Spaced(attempts, d) && Fill(attempts, d).state.Wrote?
    ensures f == FirstGathered(attempts) < |attempts| && Fill(attempts, d).started == attempts[f].begin
    ensures |Fill(attempts, d).records| <= |attempts| - f <= CeilDiv(7000, d)
  {
    f := FirstGathered(attempts);
    OpenIsOpenThrough(attempts, d);
    FillExactly(attempts, d);
    FillCommitted(attempts, d);
    CommittedSome(attempts);
    var last := |attempts| - 1;
    StartsApart(attempts, d, f, last);
    assert attempts[last].begin <= attempts[last].finish;
    CeilBound(7000, d, last - f);
  }

  // ------------------------------------------------------------- sizes

  lemma RecordSize(a: Attempt)
    requires Outcome(a.source) == ENONE
    ensures |Render(RecordOf(a))| <= RecordPeak(a)
  {
    RecordText(a);
    MemberIsSection(false, "values", a.source);
  }

  ghost predicate Short(elements: seq<Json>, r: nat) {
    forall i :: 0 <= i < |elements| ==> |Render(elements[i])| <= r
  }

  lemma {:induction false} JoinedSize(elements: seq<Json>, r: nat)
    requires Short(elements, r)
    ensures |Join(RenderElements(elements))| <= |elements| * (r + 1)
  {
    if elements != [] {
      var n := |elements| - 1;
      JoinedSize(elements[..n], r);
      OneMoreSize(RenderElements(elements[..n]), Render(elements[n]));
      OneMoreTimes(n, r + 1);
    }
  }

  lemma OneMoreSize(texts: seq<string>, last: string)
    ensures |Join(texts + [last])| <= |Join(texts)| + 1 + |last|
  {
    JoinLast(texts, last);
  }

  lemma OneMoreTimes(n: nat, m: nat)
    ensures (n + 1) * m == n * m + m
  {
  }

  ghost predicate Peaks(attempts: seq<Attempt>, r: nat) {
    forall i :: 0 <= i < |attempts| ==> RecordPeak(attempts[i]) <= r
  }

  lemma {:induction false} ShortRecords(attempts: seq<Attempt>, d: nat, r: nat)
    requires Spaced(attempts, d) && Peaks(attempts, r)
    ensures Short(Fill(attempts, d).records, r)
    decreases |attempts|
  {
    if attempts != [] {
      var a := attempts[|attempts| - 1];
      ShortRecords(attempts[..|attempts| - 1], d, r);
      if Outcome(a.source) == ENONE { RecordSize(a); }
    }
  }

  /** No append is ever truncated: with headers of at most h and records of at most r characters,
      every gather a packet sees fits, if h + (ceil(7000/d) + 1)(r + 1) + 2 < PKTSZ. */
  lemma NeverTruncated(attempts: seq<Attempt>, d: nat, header: string, r: nat, a: Attempt)
    requires Spaced(attempts, d) && Peaks(attempts, r) && RecordPeak(a) <= r
    requires Open(Fill(attempts, d))
    requires |header| + (CeilDiv(7000, d) + 1) * (r + 1) + 2 < PKTSZ
    ensures Fits(header, Fill(attempts, d), a)
  {
    var b, n := Fill(attempts, d), CeilDiv(7000, d);
    ShortRecords(attempts, d, r);
    JoinedSize(b.records, r);
    if b.state.Wrote? { var f := GathersBound(attempts, d); }
    MulMonotone(|b.records|, n, r + 1);
    OneMoreTimes(n, r + 1);
  }

  // ------------------------------------------------------- a whole life

  // What the configuration has to guarantee for the buffer to suffice.
  ghost predicate Suffices(header: string, attempts: seq<Attempt>, d: nat, r: nat) {
    && Spaced(attempts, d) && Peaks(attempts, r)
    && |header| + (CeilDiv(7000, d) + 1) * (r + 1) + 2 < PKTSZ
  }

  lemma NextFits(header: string, attempts: seq<Attempt>, d: nat, r: nat, used: nat)
    requires Suffices(header, attempts, d, r) && used < |attempts|
    requires Spaced(attempts[..used], d) && Open(Fill(attempts[..used], d))
    ensures Fits(header, Fill(attempts[..used], d), attempts[used])
  {
    NeverTruncated(attempts[..used], d, header, r, attempts[used]);
  }

  // Gathers into p until it is closed or there are no more.
  method RunAttempts(p: PacketBuffer, license: string, tid: nat, attempts: seq<Attempt>, ghost d: nat, ghost r: nat)
    returns (used: nat)
    requires p.Claimed() && Suffices(Header(license, tid), attempts, d, r)
    requires forall i :: 0 <= i < |attempts| ==> Outcome(attempts[i].source) <= EPLUGDOWN
    modifies p, p.payload
    ensures used <= |attempts| && Spaced(attempts[..used], d) && OpenThrough(attempts[..used], d)
    ensures Holds(p, Header(license, tid), Fill(attempts[..used], d))
    ensures Open(Fill(attempts[..used], d)) ==> used == |attempts|
  {
    used := 0;
    ghost var b := FRESH;
    while used < |attempts| && (p.state == Empty || p.state == Begin || p.state == Wrote)
      invariant used <= |attempts| && Spaced(attempts[..used], d)
      invariant b == Fill(attempts[..used], d) && Holds(p, Header(license, tid), b)
      invariant OpenThrough(attempts[..used], d)
    {
      OneMore(attempts, d, used);
      NextFits(Header(license, tid), attempts, d, r, used);
      var code := Collect(p, license, tid, b, attempts[used]);
      b := Advance(b, attempts[used]);
      used := used + 1;
    }
  }

  /** A packet from its claim to its hand-over, fresh or recycled: for any gathers at least d apart it never
      overflows, and when it becomes READY its payload is the JSON document of the records committed in it. */
  method FillPacket(p: PacketBuffer, license: string, tid: nat, attempts: seq<Attempt>, ghost d: nat, ghost r: nat)
    returns (used: nat)
    requires p.Claimed() && Suffices(Header(license, tid), attempts, d, r)
    requires forall i :: 0 <= i < |attempts| ==> Outcome(attempts[i].source) <= EPLUGDOWN
    modifies p, p.payload
    ensures used <= |attempts| && Spaced(attempts[..used], d)
    ensures p.state == Fill(attempts[..used], d).state && (used > 0 ==> p.Valid())
    ensures p.state == Ready || p.state == Done || used == |attempts|
    ensures p.state == Ready ==>
              && Committed(attempts[..used]) != []
              && p.Text() == Render(Document(license, tid, Committed(attempts[..used])))
    ensures p.state == Done ==> Committed(attempts[..used]) == []
  {
    used := RunAttempts(p, license, tid, attempts, d, r);
    ghost var b := Fill(attempts[..used], d);
    if used > 0 { OpenedOnce(attempts[..used], d); }
    FillCommitted(attempts[..used], d);
    DoneIsEmpty(attempts[..used], d);
    if p.state == Ready { ReadyIsDocument(license, tid, b); }
  }

  lemma OpenedOnce(attempts: seq<Attempt>, d: nat)
    requires Spaced(attempts, d) && attempts != []
    ensures !Fill(attempts, d).state.Empty?
    decreases |attempts|
  {
    if |attempts| > 1 { OpenedOnce(attempts[..|attempts| - 1], d); }
  }

  // A packet dropped without posting held no record.
  lemma DoneIsEmpty(attempts: seq<Attempt>, d: nat)
    requires Spaced(attempts, d)
    ensures Fill(attempts, d).state.Done? ==> Fill(attempts, d).records == []
    decreases |attempts|
  {
    if attempts != [] { DoneIsEmpty(attempts[..|attempts| - 1], d); }
  }

  // ------------------------------------------------------------ many lives

  // One claim of a packet: whose it is and the gathers it sees.
  datatype Life = Life(license: string, tid: nat, attempts: seq<Attempt>)

  ghost predicate Liveable(life: Life, d: nat, r: nat) {
    && Suffices(Header(life.license, life.tid), life.attempts, d, r)
    && (forall i :: 0 <= i < |life.attempts| ==> Outcome(life.attempts[i].source) <= EPLUGDOWN)
    && !Open(Fill(life.attempts, d))
  }

  // What storage posts in a life: the document of its records, or nothing.
  ghost function PostOf(life: Life, d: nat): seq<string>
    requires Spaced(life.attempts, d)
  {
    var b := Fill(life.attempts, d);
    if b.state.Ready? then [Render(Document(life.license, life.tid, b.records))] else []
  }

  ghost predicate AllLiveable(lives: seq<Life>, d: nat, r: nat) {
    forall i :: 0 <= i < |lives| ==> Liveable(lives[i], d, r)
  }

  ghost function PostsOf(lives: seq<Life>, d: nat, r: nat): seq<string>
    requires AllLiveable(lives, d, r)
  {
    if lives == [] then [] else PostsOf(lives[..|lives| - 1], d, r) + PostOf(lives[|lives| - 1], d)
  }

  // Once closed, a packet stays what it was.
  lemma {:induction false} ClosedStays(attempts: seq<Attempt>, d: nat, used: nat)
    requires Spaced(attempts, d) && used <= |attempts| && Spaced(attempts[..used], d) && !Open(Fill(attempts[..used], d))
    ensures Fill(attempts, d) == Fill(attempts[..used], d)
    decreases |attempts|
  {
    if used < |attempts| {
      var before := attempts[..|attempts| - 1];
      assert before[..used] == attempts[..used];
      ClosedStays(before, d, used);
    } else {
      assert attempts[..used] == attempts;
    }
  }

  // A DONE packet is claimed, filled and, if it became READY, posted.
  method LiveOnce(p: PacketBuffer, life: Life, ghost d: nat, ghost r: nat) returns (posted: seq<string>)
    requires p.payload.Length == PKTSZ && p.state == Done && Liveable(life, d, r)
    modifies p, p.payload
    ensures p.payload.Length == PKTSZ && p.state == Done && posted == PostOf(life, d)
  {
    var claimed := p.Reclaim(Metric);
    var used := RunAttempts(p, life.license, life.tid, life.attempts, d, r);
    assert life.attempts[..|life.attempts|] == life.attempts;
    ClosedStays(life.attempts, d, used);
    posted := [];
    if p.state == Ready {
      ReadyIsDocument(life.license, life.tid, Fill(life.attempts, d));
      posted := [p.Text()];
      p.state := Done;
    }
  }

  /** A packet recycled any number of times, by plugins with different tids and whatever its buffer held at
      first: what is posted is, life by life, exactly the document of that life's records. */
  method LiveOn(p: PacketBuffer, lives: seq<Life>, ghost d: nat, ghost r: nat) returns (posted: seq<string>)
    requires p.payload.Length == PKTSZ && p.state == Done && AllLiveable(lives, d, r)
    modifies p, p.payload
    ensures p.state == Done && posted == PostsOf(lives, d, r)
  {
    posted := [];
    for n := 0 to |lives|
      invariant p.payload.Length == PKTSZ && p.state == Done && posted == PostsOf(lives[..n], d, r)
    {
      assert lives[..n + 1][..n] == lives[..n];
      var once := LiveOnce(p, lives[n], d, r);
      posted := posted + once;
    }
    assert lives[..|lives|] == lives;
  }
}
