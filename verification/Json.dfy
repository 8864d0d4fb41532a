/**
 JSON trees and their text: objects are comma-separated members in braces, arrays
 comma-separated elements in brackets (sections 4 and 5 of RFC 8259).  Strings and
 numbers are opaque fragments.
 */
module Json {

  datatype Json =
    | Raw(text: string)
    | Object(members: seq<Member>)
    | Array(elements: seq<Json>)

  datatype Member = Member(name: string, value: Json)

  function Render(j: Json): string
    decreases j, 1
  {
    match j
    case Raw(text) => text
    case Object(members) => "{" + Join(RenderMembers(members)) + "}"
    case Array(elements) => "[" + Join(RenderElements(elements)) + "]"
  }

  function RenderMember(m: Member): string
    decreases m, 1
  {
    "\"" + m.name + "\":" + Render(m.value)
  }

  function RenderMembers(members: seq<Member>): (texts: seq<string>)
    ensures |texts| == |members|
    decreases members, 0
  {
    if members == [] then [] else [RenderMember(members[0])] + RenderMembers(members[1..])
  }

  function RenderElements(elements: seq<Json>): (texts: seq<string>)
    ensures |texts| == |elements|
    decreases elements, 0
  {
    if elements == [] then [] else RenderElements(elements[..|elements| - 1]) + [Render(elements[|elements| - 1])]
  }

  /** Separate by commas. */
  function Join(texts: seq<string>): string {
    if |texts| == 0 then ""
    else if |texts| == 1 then texts[0]
    else Join(texts[..|texts| - 1]) + "," + texts[|texts| - 1]
  }

  lemma {:induction false} JoinFront(first: string, rest: seq<string>)
    requires rest != []
    ensures Join([first] + rest) == first + "," + Join(rest)
  {
    var all := [first] + rest;
    assert all[..|all| - 1] == [first] + rest[..|rest| - 1];
    if |rest| > 1 {
      JoinFront(first, rest[..|rest| - 1]);
    }
  }

  lemma JoinLast(texts: seq<string>, last: string)
    ensures Join(texts + [last]) == (if texts == [] then last else Join(texts) + "," + last)
  {
    assert (texts + [last])[..|texts|] == texts;
  }

  lemma ElementsLast(elements: seq<Json>, last: Json)
    ensures RenderElements(elements + [last]) == RenderElements(elements) + [Render(last)]
  {
    assert (elements + [last])[..|elements|] == elements;
  }

  lemma {:induction false} MembersLast(ms: seq<Member>, m: Member)
    ensures RenderMembers(ms + [m]) == RenderMembers(ms) + [RenderMember(m)]
  {
    if ms == [] {
      assert [m][1..] == [] && ms + [m] == [m];
    } else {
      assert (ms + [m])[1..] == ms[1..] + [m];
      MembersLast(ms[1..], m);
    }
  }

  lemma ThreeRendered(a: Member, b: Member, c: Member)
    ensures Join(RenderMembers([a, b, c])) == RenderMember(a) + "," + RenderMember(b) + "," + RenderMember(c)
  {
    assert [a, b, c][1..] == [b, c] && [b, c][1..] == [c] && [c][1..] == [];
    var ta, tb, tc := RenderMember(a), RenderMember(b), RenderMember(c);
    assert RenderMembers([c]) == [tc];
    assert RenderMembers([b, c]) == [tb, tc];
    assert RenderMembers([a, b, c]) == [ta, tb, tc];
    assert [ta, tb, tc][..2] == [ta, tb] && [ta, tb][..1] == [ta];
    assert Join([ta, tb]) == ta + "," + tb;
  }

  // A piece of a comma-separated text: what has to follow text that may already hold members.
  function Continue(lead: bool, texts: seq<string>): string {
    if texts == [] then "" else (if lead then "," else "") + Join(texts)
  }

  lemma ContinueFront(lead: bool, first: string, rest: seq<string>)
    ensures Continue(lead, [first] + rest) == (if lead then "," else "") + first + Continue(true, rest)
  {
    if rest == [] {
      assert [first] + rest == [first];
    } else {
      JoinFront(first, rest);
    }
  }
}
