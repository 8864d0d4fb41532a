/**
 What a gather callback does, as a value: a probe appends some text and returns a
 code; a composite runs `packet_gather` on each section in some order and returns
 the bitwise AND of their codes.
 */
module Gatherers {
  import opened Json

  type Code = bv8
  const ENONE: Code := 0
  const ENODATA: Code := 1
  const EPLUGUP: Code := 2
  const EPLUGDOWN: Code := 3

  datatype Gatherer =
    | Probe(code: Code, text: string)
    | Sections(parts: seq<Section>)

  datatype Section = Section(tag: string, body: Gatherer)

  function Outcome(g: Gatherer): Code
    decreases g, 1
  {
    match g
    case Probe(code, _) => code
    case Sections(parts) => AndAll(parts)
  }

  function AndAll(parts: seq<Section>): Code
    decreases parts, 0
  {
    if parts == [] then 0xFF else Outcome(parts[0].body) & AndAll(parts[1..])
  }

  /** The JSON a gatherer stands for: an object of the sections that succeeded. */
  function Value(g: Gatherer): Json
    decreases g, 1
  {
    match g
    case Probe(_, text) => Raw("{" + text + "}")
    case Sections(parts) => Object(Members(parts))
  }

  function Members(parts: seq<Section>): seq<Member>
    decreases parts, 0
  {
    if parts == [] then []
    else if Outcome(parts[0].body) == ENONE then [Member(parts[0].tag, Value(parts[0].body))] + Members(parts[1..])
    else Members(parts[1..])
  }

  // The text between the braces of Value(g).
  function Body(g: Gatherer): (text: string)
    ensures Render(Value(g)) == "{" + text + "}"
  {
    match g
    case Probe(_, text) => text
    case Sections(parts) => Join(RenderMembers(Members(parts)))
  }

  function Max(a: nat, b: nat): nat { if a < b then b else a }

  // The most characters a gatherer has in the buffer at any moment beyond where it started.
  function Peak(g: Gatherer): nat
    decreases g, 1
  {
    match g
    case Probe(_, text) => |text|
    case Sections(parts) => PeakParts(parts, false)
  }

  function PeakParts(parts: seq<Section>, lead: bool): nat
    decreases parts, 0
  {
    if parts == [] then 0
    else
      var g := parts[0].body;
      var open := |Opening(lead, parts[0].tag)|;
      if Outcome(g) == ENONE then
        Max(open + Peak(g), open + |Body(g)| + 1 + PeakParts(parts[1..], true))
      else Max(open + Peak(g), PeakParts(parts[1..], lead))
  }

  function Opening(lead: bool, tag: string): string {
    (if lead then "," else "") + "\"" + tag + "\":{"
  }

  function SectionPeak(lead: bool, tag: string, g: Gatherer): nat {
    |Opening(lead, tag)| + Max(Peak(g), if Outcome(g) == ENONE then |Body(g)| + 1 else 0)
  }

  // ------------------------------------------------- the combined outcome

  predicate Enumerated(parts: seq<Section>) {
    forall i :: 0 <= i < |parts| ==> Outcome(parts[i].body) <= 3
  }

  ghost predicate Some(parts: seq<Section>, code: Code) {
    exists i :: 0 <= i < |parts| && Outcome(parts[i].body) == code
  }

  // A bit of the AND is set iff it is set in every code.
  lemma {:induction false} AndBit(parts: seq<Section>, bit: Code)
    requires bit == 1 || bit == 2
    ensures AndAll(parts) & bit == bit <==> forall i :: 0 <= i < |parts| ==> Outcome(parts[i].body) & bit == bit
  {
    if parts != [] {
      AndBit(parts[1..], bit);
      assert AndAll(parts) == Outcome(parts[0].body) & AndAll(parts[1..]);
      AndBits(Outcome(parts[0].body), AndAll(parts[1..]), bit);
      assert forall i :: 0 <= i < |parts[1..]| ==> parts[1..][i] == parts[i + 1];
      if forall i :: 0 <= i < |parts[1..]| ==> Outcome(parts[1..][i].body) & bit == bit {
        forall i | 0 < i < |parts| ensures Outcome(parts[i].body) & bit == bit { assert parts[i] == parts[1..][i - 1]; }
      }
    }
  }

  lemma AndBits(a: Code, b: Code, bit: Code)
    requires bit == 1 || bit == 2
    ensures (a & b) & bit == bit <==> a & bit == bit && b & bit == bit
  {
  }

  lemma {:induction false} AndSmall(parts: seq<Section>)
    requires Enumerated(parts) && parts != []
    ensures AndAll(parts) <= 3
  {
    AndLow(Outcome(parts[0].body), AndAll(parts[1..]));
  }

  lemma AndLow(a: Code, b: Code)
    requires a <= 3
    ensures a & b <= 3
  {
  }

  lemma SmallBits(a: Code)
    requires a <= 3
    ensures a == 0 <==> a & 1 != 1 && a & 2 != 2
    ensures a & 1 == 1 <==> a == 1 || a == 3
    ensures a & 2 == 2 <==> a == 2 || a == 3
  {
  }

  /** Sections combined with & report ENONE iff one of them did, or one reported ENODATA and
      another EPLUGUP: with ENONE and ENODATA only, iff one succeeded. */
  lemma CombinedOutcome(parts: seq<Section>)
    requires Enumerated(parts) && parts != []
    ensures Outcome(Sections(parts)) == ENONE <==> Some(parts, ENONE) || (Some(parts, ENODATA) && Some(parts, EPLUGUP))
  {
    AndSmall(parts);
    SmallBits(AndAll(parts));
    AndBit(parts, 1);
    AndBit(parts, 2);
    forall i | 0 <= i < |parts| ensures Outcome(parts[i].body) <= 3 { }
    if AndAll(parts) == 0 {
      var i :| 0 <= i < |parts| && Outcome(parts[i].body) & 1 != 1;
      var j :| 0 <= j < |parts| && Outcome(parts[j].body) & 2 != 2;
      SmallBits(Outcome(parts[i].body));
      SmallBits(Outcome(parts[j].body));
    } else {
      forall i | 0 <= i < |parts| ensures var c := Outcome(parts[i].body); (c & 1 == 1 <==> c == 1 || c == 3) && (c & 2 == 2 <==> c == 2 || c == 3) {
        SmallBits(Outcome(parts[i].body));
      }
    }
  }

  /** The gatherer's object is empty exactly if no section succeeded. */
  lemma {:induction false} MembersIffSome(parts: seq<Section>)
    ensures Members(parts) != [] <==> Some(parts, ENONE)
  {
    if parts != [] {
      MembersIffSome(parts[1..]);
      if Some(parts[1..], ENONE) {
        var i :| 0 <= i < |parts[1..]| && Outcome(parts[1..][i].body) == ENONE;
        assert parts[i + 1] == parts[1..][i];
      }
      if Some(parts, ENONE) && Outcome(parts[0].body) != ENONE {
        var i :| 0 <= i < |parts| && Outcome(parts[i].body) == ENONE;
        assert parts[1..][i - 1] == parts[i];
      }
    }
  }

  // With ENODATA and EPLUGUP mixed the result is ENONE although nothing was gathered.
  lemma MixedCodes()
    ensures var parts := [Section("a", Probe(ENODATA, "")), Section("b", Probe(EPLUGUP, ""))];
            Outcome(Sections(parts)) == ENONE && Members(parts) == []
  {
    var parts := [Section("a", Probe(ENODATA, "")), Section("b", Probe(EPLUGUP, ""))];
    assert parts[1..] == [parts[1]];
    assert parts[0].body == Probe(ENODATA, "") && parts[1].body == Probe(EPLUGUP, "");
    assert Outcome(parts[0].body) == ENODATA && Outcome(parts[1].body) == EPLUGUP;
    CombinedOutcome(parts);
    MembersIffSome(parts);
  }

  // ------------------------------------------------- order of evaluation

  lemma AndSwap(a: Code, b: Code, c: Code)
    ensures a & (b & c) == b & (a & c)
  {
  }

  function Without(parts: seq<Section>, k: nat): seq<Section>
    requires k < |parts|
  {
    parts[..k] + parts[k + 1..]
  }

  // Any section may be evaluated first.
  lemma {:induction false} AndTakeOut(parts: seq<Section>, k: nat)
    requires k < |parts|
    ensures AndAll(parts) == Outcome(parts[k].body) & AndAll(Without(parts, k))
    decreases |parts|
  {
    if k == 0 {
      assert Without(parts, 0) == parts[1..];
    } else {
      AndTakeOut(parts[1..], k - 1);
      var w := Without(parts, k);
      assert w[0] == parts[0] && w[1..] == Without(parts[1..], k - 1);
      AndSwap(Outcome(parts[0].body), Outcome(parts[k].body), AndAll(w[1..]));
    }
  }

  // The member a section contributes, if any.
  function Contribution(s: Section): multiset<Member> {
    if Outcome(s.body) == ENONE then multiset{Member(s.tag, Value(s.body))} else multiset{}
  }

  lemma MembersFront(parts: seq<Section>)
    requires parts != []
    ensures multiset(Members(parts)) == Contribution(parts[0]) + multiset(Members(parts[1..]))
  {
  }

  lemma {:induction false} MembersTakeOut(parts: seq<Section>, k: nat)
    requires k < |parts|
    ensures multiset(Members(parts)) == Contribution(parts[k]) + multiset(Members(Without(parts, k)))
    decreases |parts|
  {
    MembersFront(parts);
    if k == 0 {
      assert Without(parts, 0) == parts[1..];
    } else {
      MembersTakeOut(parts[1..], k - 1);
      var w := Without(parts, k);
      assert w[0] == parts[0] && w[1..] == Without(parts[1..], k - 1);
      MembersFront(w);
    }
  }

  lemma SamePartsLeft(parts: seq<Section>, parts': seq<Section>, k: nat)
    requires parts != [] && multiset(parts) == multiset(parts') && k < |parts'| && parts'[k] == parts[0]
    ensures multiset(parts[1..]) == multiset(Without(parts', k))
  {
    var x, rest, w := parts[0], parts[1..], Without(parts', k);
    assert parts == [x] + rest;
    assert parts' == parts'[..k] + [x] + parts'[k + 1..];
    assert multiset(parts') == multiset(parts'[..k]) + multiset{x} + multiset(parts'[k + 1..]);
    assert multiset(w) == multiset(parts'[..k]) + multiset(parts'[k + 1..]);
    forall s: Section ensures multiset(rest)[s] == multiset(w)[s] {
      assert multiset(parts)[s] == (multiset{x} + multiset(rest))[s];
      assert multiset(parts')[s] == (multiset{x} + multiset(w))[s];
    }
  }

  /** The order in which C evaluates the operands of & does not matter: same result code, same members. */
  lemma {:induction false} OrderOfEvaluation(parts: seq<Section>, parts': seq<Section>)
    requires multiset(parts) == multiset(parts')
    ensures AndAll(parts) == AndAll(parts')
    ensures multiset(Members(parts)) == multiset(Members(parts'))
    decreases |parts|
  {
    if parts == [] {
      assert |multiset(parts')| == 0;
    } else {
      assert parts[0] in multiset(parts');
      var k :| 0 <= k < |parts'| && parts'[k] == parts[0];
      SamePartsLeft(parts, parts', k);
      OrderOfEvaluation(parts[1..], Without(parts', k));
      AndTakeOut(parts', k);
      MembersTakeOut(parts', k);
      MembersFront(parts);
    }
  }
}
