/**
 The packet buffer: appending inside a transaction, rolling back, and nested gathers.
 */
module Packets {
  import opened PacketTypes
  import opened Json
  import opened Decimal
  import opened Gatherers

  const PKTSZ := 32768
  const NUL: char := '\0'

  // A packet of the pool, or an out-of-band packet.
  class PacketBuffer {
    const payload: array<char>
    var kind: PacketType
    var state: PacketState
    var started: nat
    var size: int
    var rollbackPoint: int
    var attempt: nat
    var response: int

    /** The text fits and is terminated. */
    ghost predicate Valid()
      reads this, payload
    {
      payload.Length == PKTSZ && 0 <= size < PKTSZ && payload[size] == NUL
    }

    function Text(): string
      requires 0 <= size <= payload.Length
      reads this, payload
    {
      payload[..size]
    }

    // packet_alloc
    constructor (kind: PacketType)
      ensures Valid() && fresh(payload) && Text() == "" && rollbackPoint == 0
      ensures this.kind == kind && state == Empty && attempt == 0
    {
      payload := new char[PKTSZ](i => NUL);
      this.kind, state, started := kind, Empty, 0;
      size, rollbackPoint, attempt, response := 0, 0, 0, 0;
    }

    /** Just handed out by get_packet: nothing in it counts, but a recycled packet still has its old text. */
    ghost predicate Claimed()
      reads this
    {
      payload.Length == PKTSZ && state == Empty && size == 0
    }

    /** storage.c:55-61: a DONE packet is claimed by resetting its fields; its bytes stay as they are. */
    method Reclaim(kind: PacketType) returns (claimed: bool)
      requires payload.Length == PKTSZ
      modifies this
      ensures claimed == (old(state) == Done)
      ensures claimed ==> Claimed() && this.kind == kind && attempt == 0 && response == 0
      ensures !claimed ==> unchanged(this)
    {
      if state != Done { return false; }
      state := Empty;
      this.kind, response, size, attempt := kind, 0, 0, 0;
      claimed := true;
    }

    /** packet_append: snprintf stores at most what is left less the terminator, but the size grows by
        the untruncated length. */
    method Append(text: string)
      requires payload.Length == PKTSZ && 0 <= size < PKTSZ
      modifies this`size, payload
      ensures size == old(size) + |text|
      ensures payload[..old(size)] == old(payload[..size])
      ensures size < PKTSZ ==> Valid() && Text() == old(Text()) + text
      ensures size >= PKTSZ ==>
                payload[old(size)..PKTSZ - 1] == text[..PKTSZ - 1 - old(size)] && payload[PKTSZ - 1] == NUL
    {
      var room := PKTSZ - size - 1;
      var n := if |text| <= room then |text| else room;
      forall i | 0 <= i < n { payload[size + i] := text[i]; }
      payload[size + n] := NUL;
      size := size + |text|;
    }

    // packet_transaction
    method Transaction()
      modifies this`rollbackPoint
      ensures rollbackPoint == size
    {
      rollbackPoint := size;
    }

    // packet_commit
    method Commit()
      modifies this`rollbackPoint
      ensures rollbackPoint == size
    {
      rollbackPoint := size;
    }

    /** packet_rollback: the text is again what it was up to the rollback point. */
    method Rollback()
      requires payload.Length == PKTSZ && 0 <= rollbackPoint <= size < PKTSZ
      modifies this`size, payload
      ensures Valid() && size == rollbackPoint && Text() == old(payload[..rollbackPoint])
    {
      size := rollbackPoint;
      payload[size] := NUL;
    }

    /** plugin.c:83-84: print a number over the twenty columns at the rollback point; sprintf's
        terminator lands on the comma behind them, which is put back. */
    method PatchNumber(n: nat)
      requires Valid() && 0 <= rollbackPoint && rollbackPoint + 20 < size && |Padded(n)| == 20
      modifies payload
      ensures Valid()
      ensures Text() == old(Text())[..rollbackPoint] + Padded(n) + "," + old(Text())[rollbackPoint + 21..]
    {
      var digits := Padded(n);
      forall i | 0 <= i < 20 { payload[rollbackPoint + i] := digits[i]; }
      payload[rollbackPoint + 20] := NUL;
      payload[rollbackPoint + 20] := ',';
    }

    // Whether the next member has to be preceded by a comma.
    predicate Leads()
      requires 0 < size <= payload.Length
      reads this, payload
    {
      payload[size - 1] == '}'
    }

    /** packet_gather: on success one more member, properly separated; on failure the earlier bytes,
        the size and the terminator exactly as before. */
    method Gather(tag: string, g: Gatherer) returns (code: Code)
      requires Valid() && 0 < size && size + SectionPeak(Leads(), tag, g) < PKTSZ
      modifies this`size, payload
      ensures Valid() && code == Outcome(g)
      ensures code == ENONE ==>
                Text() == old(Text()) + MemberText(old(Leads()), tag, g)
      ensures code != ENONE ==> Text() == old(Text())
      decreases g, 2
    {
      var mark := size;
      ghost var before, lead := Text(), Leads();
      Append((if payload[size - 1] == '}' then "," else "") + "\"" + tag + "\":{");
      assert Text() == before + Opening(lead, tag);
      LastOfOpening(before, lead, tag);
      code := Call(g);
      if code != ENONE {
        assert payload[..mark] == Text()[..mark] == before;
        size := mark;
        payload[size] := NUL;
      } else {
        Append("}");
        SectionText(before, lead, tag, g);
      }
    }

    // Calling back: the gatherer appends its text and reports its outcome.
    method Call(g: Gatherer) returns (code: Code)
      requires Valid() && 0 < size && !Leads() && size + Peak(g) < PKTSZ
      modifies this`size, payload
      ensures Valid() && code == Outcome(g) && Text() == old(Text()) + Body(g)
      decreases g, 1
    {
      match g
      case Probe(c, text) =>
        Append(text);
        code := c;
      case Sections(parts) =>
        ghost var before := Text();
        code := CallParts(parts);
        WithoutLead(before, Text(), RenderMembers(Members(parts)));
    }

    // The operands of & in the order they happen to be evaluated.
    method CallParts(parts: seq<Section>) returns (code: Code)
      requires Valid() && 0 < size && size + PeakParts(parts, Leads()) < PKTSZ
      modifies this`size, payload
      ensures Valid() && code == AndAll(parts)
      ensures Text() == old(Text()) + Continue(old(Leads()), RenderMembers(Members(parts)))
      decreases parts, 0
    {
      if parts == [] { return 0xFF; }
      ghost var before, lead := Text(), Leads();
      PeakFirst(parts, lead);
      var first := Gather(parts[0].tag, parts[0].body);
      if first == ENONE { LastOfMember(before, lead, parts[0].tag, parts[0].body); }
      ghost var after := Text();
      assert after != [] && (Leads() <==> after[|after| - 1] == '}');
      var rest := CallParts(parts[1..]);
      code := first & rest;
      AndFirst(parts, first, rest);
      Regroup(before, lead, parts, after, Text());
    }
  }

  lemma WithoutLead(before: string, after: string, texts: seq<string>)
    requires after == before + Continue(false, texts)
    ensures after == before + Join(texts)
  {
    assert Continue(false, texts) == Join(texts);
  }

  lemma LastOfOpening(before: string, lead: bool, tag: string)
    ensures var text := before + Opening(lead, tag); text != [] && text[|text| - 1] == '{'
  {
  }

  // The member a successful gather adds, with the comma that separates it.
  function MemberText(lead: bool, tag: string, g: Gatherer): string {
    (if lead then "," else "") + RenderMember(Member(tag, Value(g)))
  }

  lemma MemberIsSection(lead: bool, tag: string, g: Gatherer)
    ensures MemberText(lead, tag, g) == Opening(lead, tag) + Body(g) + "}"
  {
  }

  lemma SectionText(before: string, lead: bool, tag: string, g: Gatherer)
    ensures before + Opening(lead, tag) + Body(g) + "}" == before + MemberText(lead, tag, g)
  {
    MemberIsSection(lead, tag, g);
  }

  lemma LastOfMember(before: string, lead: bool, tag: string, g: Gatherer)
    ensures var text := before + MemberText(lead, tag, g);
            && text != [] && text[|text| - 1] == '}'
            && |text| == |before| + |Opening(lead, tag)| + |Body(g)| + 1
  {
    MemberIsSection(lead, tag, g);
  }

  // The room all sections need is enough for the first and, after it, for the others.
  lemma PeakFirst(parts: seq<Section>, lead: bool)
    requires parts != []
    ensures var tag, g := parts[0].tag, parts[0].body; var peak := PeakParts(parts, lead);
            && SectionPeak(lead, tag, g) <= peak
            && (Outcome(g) == ENONE ==> |Opening(lead, tag)| + |Body(g)| + 1 + PeakParts(parts[1..], true) <= peak)
            && (Outcome(g) != ENONE ==> PeakParts(parts[1..], lead) <= peak)
  {
  }

  lemma AndFirst(parts: seq<Section>, first: Code, rest: Code)
    requires parts != [] && first == Outcome(parts[0].body) && rest == AndAll(parts[1..])
    ensures first & rest == AndAll(parts)
  {
  }

  // The first section's member and then the others' make the members of all.
  lemma Regroup(before: string, lead: bool, parts: seq<Section>, after: string, final: string)
    requires parts != []
    requires var s := parts[0]; after == if Outcome(s.body) == ENONE then before + MemberText(lead, s.tag, s.body) else before
    requires final == after + Continue(if Outcome(parts[0].body) == ENONE then true else lead, RenderMembers(Members(parts[1..])))
    ensures final == before + Continue(lead, RenderMembers(Members(parts)))
  {
    PartsText(lead, parts);
  }

  lemma PartsText(lead: bool, parts: seq<Section>)
    requires parts != []
    ensures var rest := RenderMembers(Members(parts[1..]));
            Continue(lead, RenderMembers(Members(parts))) ==
              if Outcome(parts[0].body) == ENONE then MemberText(lead, parts[0].tag, parts[0].body) + Continue(true, rest)
              else Continue(lead, rest)
  {
    if Outcome(parts[0].body) == ENONE {
      var m, ms := Member(parts[0].tag, Value(parts[0].body)), Members(parts[1..]);
      assert Members(parts) == [m] + ms;
      assert ([m] + ms)[1..] == ms;
      assert RenderMembers([m] + ms) == [RenderMember(m)] + RenderMembers(ms);
      ContinueFront(lead, RenderMember(m), RenderMembers(ms));
    }
  }
}
