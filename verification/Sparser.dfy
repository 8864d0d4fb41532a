/**
 The configuration parser: a line-driven machine of four states that skips blocks
 switched off or not loadable, and a printer it reads back.
 */
module Sparser {
  import opened Util

  const MAX_ARGS := 10
  const MAX_PLUGINS := 5

  // ------------------------------------------------------------- reading

  // How many characters fgets takes: through the first newline, at most n.
  function LineLength(text: string, n: nat): (k: nat)
    ensures k <= |text| && k <= n
    ensures text != [] && n > 0 ==> k > 0
  {
    if text == [] || n == 0 then 0
    else if text[0] == '\n' then 1
    else 1 + LineLength(text[1..], n - 1)
  }

  // The lines successive calls of fgets return.
  function Lines(text: string): seq<string>
    decreases |text|
  {
    if text == [] then []
    else
      var k := LineLength(text, BFSZ - 1);
      [text[..k]] + Lines(text[k..])
  }

  predicate Blank(c: char) { c == ' ' || c == '\t' || c == '\n' || c == '\r' || c == 11 as char || c == 12 as char }

  // scanf's %s: the first run of non-blank characters, empty if there is none.
  function Token(s: string): string {
    if s == [] then []
    else if Blank(s[0]) then Token(s[1..])
    else Run(s)
  }

  function Run(s: string): string {
    if s == [] || Blank(s[0]) then [] else [s[0]] + Run(s[1..])
  }

  // ------------------------------------------------------------- parsing

  datatype Status = NONE | PLUG | NAME | VAL | SKIP

  // A plugin that was loaded: its type and its arguments.
  datatype Loaded = Loaded(kind: string, values: seq<string>)

  /** Plugins in order; -1; or undefined: an argument or plugin too many, or a word left out. */
  datatype Outcome = Accepted(plugins: seq<Loaded>) | Rejected | Undefined

  // SKIP is the loop of skip_until, entered where the source calls it.
  datatype State = State(status: Status, kind: string, values: seq<string>, plugins: seq<Loaded>)

  datatype Verdict = Go(st: State) | Stop(out: Outcome)

  // dlopen and dlsym, and the module's own load function
  datatype Loader = Loader(found: string -> bool, load: (string, seq<string>) -> bool)

  predicate Starts(s: string, prefix: string) { |prefix| <= |s| && s[..|prefix|] == prefix }

  function DashLine(st: State, word: string): Verdict {
    match st.status
    case PLUG =>
      if word == [] then Stop(Undefined)
      else if Starts(word, "OFF") then Go(st.(status := SKIP))
      else if Starts(word, "ON") then Go(st)
      else Stop(Rejected)
    case NONE => Stop(Rejected)
    case _ =>
      if word == [] || |st.values| >= MAX_ARGS then Stop(Undefined)
      else Go(st.(status := VAL, values := st.values + [word]))
  }

  function CloseLine(l: Loader, st: State): Verdict {
    if !st.status.VAL? && !st.status.PLUG? then Stop(Rejected)
    else if !l.load(st.kind, st.values) then Go(st.(status := NONE))
    else if |st.plugins| >= MAX_PLUGINS then Stop(Undefined)
    else Go(st.(status := NONE, plugins := st.plugins + [Loaded(st.kind, st.values)]))
  }

  function ParseLine(l: Loader, st: State, line: string): Verdict
    requires line != []
  {
    var word := Token(line[1..]);
    if st.status.SKIP? then Go(if line[0] == '>' then st.(status := NONE) else st)
    else if line[0] == '\n' || line[0] == '#' then Go(st)
    else if line[0] == '<' then
      if !st.status.NONE? then Stop(Rejected)
      else if word == [] then Stop(Undefined)
      else Go(State(if l.found(word) then PLUG else SKIP, word, [], st.plugins))
    else if line[0] == '-' then DashLine(st, word)
    else if line[0] == '!' then if st.status.PLUG? then Go(st.(status := NAME)) else Stop(Rejected)
    else if line[0] == '>' then CloseLine(l, st)
    else Stop(Rejected)
  }

  function ParseLines(l: Loader, st: State, lines: seq<string>): Outcome
    decreases |lines|
  {
    if lines == [] then Accepted(st.plugins)
    else if lines[0] == [] then Rejected
    else
      match ParseLine(l, st, lines[0])
      case Go(st') => ParseLines(l, st', lines[1..])
      case Stop(out) => out
  }

  const START := State(NONE, "", [], [])

  function Parse(l: Loader, text: string): Outcome { ParseLines(l, START, Lines(text)) }

  // ----------------------------------------------------------- the loops

  method Fgets(text: string) returns (line: string, rest: string)
    requires text != []
    ensures line != [] && |rest| < |text| && Lines(text) == [line] + Lines(rest)
  {
    var k := 0;
    while k < BFSZ - 1 && k < |text| && (k == 0 || text[k - 1] != '\n')
      invariant k <= BFSZ - 1 && k <= |text|
      invariant k > 0 && text[k - 1] == '\n' ==> LineLength(text, BFSZ - 1) == k
      invariant (k == 0 || text[k - 1] != '\n') ==> LineLength(text, BFSZ - 1) == k + LineLength(text[k..], BFSZ - 1 - k)
    {
      assert text[k..][1..] == text[k + 1..];
      k := k + 1;
    }
    line, rest := text[..k], text[k..];
  }

  /** skip_until for '>': consumes the lines up to and including the first that starts with it, or all. */
  method SkipBlock(text: string) returns (rest: string, ghost skipped: seq<string>, ghost closed: bool)
    ensures |rest| <= |text| && NoneCloses(skipped) && (!closed ==> rest == [])
    ensures closed ==> exists close :: close != [] && close[0] == '>' && Lines(text) == skipped + [close] + Lines(rest)
    ensures !closed ==> Lines(text) == skipped
  {
    rest, skipped, closed := text, [], false;
    while rest != []
      invariant |rest| <= |text| && NoneCloses(skipped) && Lines(text) == skipped + Lines(rest)
      decreases |rest|
    {
      var line: string;
      ghost var before := rest;
      line, rest := Fgets(rest);
      assert skipped + Lines(before) == skipped + [line] + Lines(rest);
      if line[0] == '>' {
        closed := true;
        return;
      }
      skipped := skipped + [line];
    }
  }

  // Skipped lines leave a skipping parser as it is; a line that starts with '>' ends the skipping.
  lemma {:induction false} SkippedLines(l: Loader, st: State, skipped: seq<string>, rest: seq<string>)
    requires st.status.SKIP? && NoneCloses(skipped)
    ensures ParseLines(l, st, skipped + rest) == ParseLines(l, st, rest)
    decreases |skipped|
  {
    if skipped == [] {
      assert skipped + rest == rest;
    } else {
      assert skipped + rest == [skipped[0]] + (skipped[1..] + rest);
      First(l, st, skipped[0], skipped[1..] + rest);
      SkippedLines(l, st, skipped[1..], rest);
    }
  }

  lemma SkipParsed(l: Loader, st: State, lines: seq<string>, skipped: seq<string>, closed: bool, rest: seq<string>)
    requires st.status.SKIP? && NoneCloses(skipped)
    requires closed ==> exists close :: close != [] && close[0] == '>' && lines == skipped + [close] + rest
    requires !closed ==> lines == skipped && rest == []
    ensures ParseLines(l, st, lines) == ParseLines(l, st.(status := NONE), rest)
  {
    if closed {
      var close :| close != [] && close[0] == '>' && lines == skipped + [close] + rest;
      assert lines == skipped + ([close] + rest);
      SkippedLines(l, st, skipped, [close] + rest);
      First(l, st, close, rest);
    } else {
      assert lines == skipped + [];
      SkippedLines(l, st, skipped, []);
    }
  }

  /** sparse: the line loop computes the parse of the whole text. */
  method Sparse(l: Loader, text: string) returns (out: Outcome)
    ensures out == Parse(l, text)
  {
    var st, rest := START, text;
    while rest != []
      invariant !st.status.SKIP? && ParseLines(l, START, Lines(text)) == ParseLines(l, st, Lines(rest))
      decreases |rest|
    {
      ghost var before := rest;
      var line: string;
      line, rest := Fgets(rest);
      assert Lines(before)[1..] == Lines(rest);
      match ParseLine(l, st, line)
      case Stop(o) => return o;
      case Go(st') =>
        st := st';
        if st.status == SKIP {
          ghost var lines := Lines(rest);
          ghost var skipped, closed;
          rest, skipped, closed := SkipBlock(rest);
          SkipParsed(l, st, lines, skipped, closed, Lines(rest));
          st := st.(status := NONE);
        }
    }
    out := Accepted(st.plugins);
  }

  // ------------------------------------------------------------ printing

  /** A block of the configuration: switched on with its arguments, or off around anything at all. */
  datatype Block = On(kind: string, values: seq<string>) | Off(kind: string, body: seq<string>)

  predicate IsWord(w: string) { w != [] && forall i :: 0 <= i < |w| ==> !Blank(w[i]) }

  predicate AllBlank(gap: string) { forall i :: 0 <= i < |gap| ==> Blank(gap[i]) && gap[i] != '\n' }

  predicate Printable(b: Block) {
    && IsWord(b.kind)
    && match b
       case On(_, values) => |values| <= MAX_ARGS && AllWords(values)
       case Off(_, body) => NoneCloses(body)
  }

  // No line starts with '>'.
  predicate NoneCloses(lines: seq<string>) { forall i :: 0 <= i < |lines| ==> lines[i] != [] && lines[i][0] != '>' }

  // A line: a mark, blanks, a word.
  function PrintLine(mark: char, gap: string, word: string): string { [mark] + gap + word + "\n" }

  function PrintValues(gap: string, values: seq<string>): seq<string> {
    if values == [] then [] else [PrintLine('-', gap, values[0])] + PrintValues(gap, values[1..])
  }

  function PrintBody(gap: string, b: Block): seq<string> {
    match b
    case On(_, values) =>
      [PrintLine('-', gap, "ON")] + (if values == [] then [] else ["!TARGET\n"] + PrintValues(gap, values))
    case Off(_, body) => [PrintLine('-', gap, "OFF")] + body
  }

  function PrintBlock(gap: string, b: Block): seq<string> {
    [PrintLine('<', "", b.kind)] + PrintBody(gap, b) + [">\n"]
  }

  function PrintAll(gap: string, blocks: seq<Block>): seq<string> {
    if blocks == [] then [] else PrintBlock(gap, blocks[0]) + PrintAll(gap, blocks[1..])
  }

  /** The plugins a configuration is meant to load: the blocks that are on, found and loadable, in order. */
  function Wanted(l: Loader, blocks: seq<Block>): seq<Loaded> {
    if blocks == [] then []
    else
      var b := blocks[0];
      (if b.On? && l.found(b.kind) && l.load(b.kind, b.values) then [Loaded(b.kind, b.values)] else []) + Wanted(l, blocks[1..])
  }

  // ----------------------------------------------------- the lines of a text

  // What one call of fgets may return: at most 127 characters, a newline only at their end.
  predicate OneRead(line: string) { 0 < |line| < BFSZ && forall i :: 0 <= i < |line| - 1 ==> line[i] != '\n' }

  // And when more text follows: fewer only with a newline.
  predicate FullRead(line: string) { OneRead(line) && (|line| == BFSZ - 1 || line[|line| - 1] == '\n') }

  lemma {:induction false} LengthExactly(text: string, n: nat)
    ensures var k := LineLength(text, n);
            && (forall i :: 0 <= i < k - 1 ==> text[i] != '\n')
            && (k < |text| && k < n ==> k > 0 && text[k - 1] == '\n')
    decreases n
  {
    if text != [] && n > 0 && text[0] != '\n' {
      LengthExactly(text[1..], n - 1);
      var k := LineLength(text[1..], n - 1);
      forall i | 0 <= i < k ensures text[i] != '\n' { if i > 0 { assert text[i] == text[1..][i - 1]; } }
      if k > 0 { assert text[k] == text[1..][k - 1]; }
    }
  }

  /** The lines are the text cut where fgets cuts it, long lines into pieces of 127 characters. */
  lemma {:induction false} LinesExactly(text: string)
    ensures Concat(Lines(text)) == text
    ensures forall i :: 0 <= i < |Lines(text)| ==> OneRead(Lines(text)[i])
    ensures forall i :: 0 <= i < |Lines(text)| - 1 ==> FullRead(Lines(text)[i])
    decreases |text|
  {
    if text != [] {
      var k := LineLength(text, BFSZ - 1);
      LengthExactly(text, BFSZ - 1);
      LinesExactly(text[k..]);
      var line, rest := text[..k], Lines(text[k..]);
      assert Lines(text) == [line] + rest && Lines(text)[1..] == rest;
      assert text == line + text[k..];
      if rest != [] { assert k < |text| && FullRead(line); }
    }
  }

  // ----------------------------------------------------- the words of a line

  /** The word of a line is its first run of non-blank characters. */
  lemma {:induction false} TokenExactly(s: string) returns (gap: string, rest: string)
    ensures s == gap + Token(s) + rest && (forall i :: 0 <= i < |gap| ==> Blank(gap[i])) && NoBlank(Token(s))
    ensures if Token(s) == [] then rest == [] else rest == [] || Blank(rest[0])
  {
    if s == [] {
      gap, rest := [], [];
    } else if Blank(s[0]) {
      gap, rest := TokenExactly(s[1..]);
      gap := [s[0]] + gap;
    } else {
      gap := [];
      rest := RunExactly(s);
    }
  }

  predicate NoBlank(w: string) { forall i :: 0 <= i < |w| ==> !Blank(w[i]) }

  lemma {:induction false} RunExactly(s: string) returns (rest: string)
    ensures s == Run(s) + rest && NoBlank(Run(s)) && (rest == [] || Blank(rest[0]))
  {
    if s == [] || Blank(s[0]) {
      rest := s;
    } else {
      rest := RunExactly(s[1..]);
    }
  }


  lemma {:induction false} RunOfWord(w: string, rest: string)
    requires (forall i :: 0 <= i < |w| ==> !Blank(w[i])) && rest != [] && Blank(rest[0])
    ensures Run(w + rest) == w
  {
    if w == [] {
      assert w + rest == rest;
    } else {
      assert (w + rest)[1..] == w[1..] + rest;
      RunOfWord(w[1..], rest);
    }
  }

  lemma {:induction false} TokenOfLine(gap: string, w: string)
    requires AllBlank(gap) && IsWord(w)
    ensures Token(gap + w + "\n") == w
  {
    var s := gap + w + "\n";
    if gap == [] {
      assert s == w + "\n";
      RunOfWord(w, "\n");
    } else {
      assert s[1..] == gap[1..] + w + "\n";
      TokenOfLine(gap[1..], w);
    }
  }

  lemma WordOfLine(mark: char, gap: string, w: string)
    requires AllBlank(gap) && IsWord(w)
    ensures var line := PrintLine(mark, gap, w); line[0] == mark && Token(line[1..]) == w
  {
    assert PrintLine(mark, gap, w)[1..] == gap + w + "\n";
    TokenOfLine(gap, w);
  }

  // ------------------------------------------------------- one line more

  // Parsing goes on after a first line that is accepted.
  lemma First(l: Loader, st: State, line: string, rest: seq<string>)
    requires line != [] && ParseLine(l, st, line).Go?
    ensures ParseLines(l, st, [line] + rest) == ParseLines(l, ParseLine(l, st, line).st, rest)
  {
    assert ([line] + rest)[1..] == rest;
  }

  lemma ValueParsed(l: Loader, st: State, gap: string, word: string, rest: seq<string>)
    requires AllBlank(gap) && IsWord(word) && (st.status.NAME? || st.status.VAL?) && |st.values| < MAX_ARGS
    ensures ParseLines(l, st, [PrintLine('-', gap, word)] + rest) ==
            ParseLines(l, st.(status := VAL, values := st.values + [word]), rest)
  {
    WordOfLine('-', gap, word);
    First(l, st, PrintLine('-', gap, word), rest);
  }

  predicate AllWords(values: seq<string>) { forall i :: 0 <= i < |values| ==> IsWord(values[i]) }

  lemma {:induction false} ValuesParsed(l: Loader, st: State, gap: string, values: seq<string>, rest: seq<string>, lines: seq<string>)
    requires AllBlank(gap) && AllWords(values)
    requires (st.status.NAME? && values != []) || st.status.VAL?
    requires |st.values| + |values| <= MAX_ARGS && lines == PrintValues(gap, values) + rest
    ensures ParseLines(l, st, lines) == ParseLines(l, st.(status := VAL, values := st.values + values), rest)
    decreases |values|
  {
    if values == [] {
      assert lines == rest;
      assert st.values + values == st.values;
    } else {
      var more := PrintValues(gap, values[1..]) + rest;
      var st' := st.(status := VAL, values := st.values + [values[0]]);
      assert lines == [PrintLine('-', gap, values[0])] + more;
      ValueParsed(l, st, gap, values[0], more);
      ValuesParsed(l, st', gap, values[1..], rest, more);
      assert st.values + [values[0]] + values[1..] == st.values + values;
    }
  }

  // A skipped body and its '>'.
  lemma Skipped(l: Loader, st: State, body: seq<string>, rest: seq<string>)
    requires st.status.SKIP? && NoneCloses(body)
    ensures ParseLines(l, st, body + [">\n"] + rest) == ParseLines(l, st.(status := NONE), rest)
  {
    SkipParsed(l, st, body + [">\n"] + rest, body, true, rest);
  }

  lemma {:induction false} ValuesDoNotClose(gap: string, values: seq<string>)
    ensures NoneCloses(PrintValues(gap, values))
  {
    if values != [] {
      ValuesDoNotClose(gap, values[1..]);
      var first := PrintLine('-', gap, values[0]);
      assert first[0] == '-' && PrintValues(gap, values) == [first] + PrintValues(gap, values[1..]);
    }
  }

  lemma BodyDoesNotClose(gap: string, b: Block)
    requires Printable(b)
    ensures NoneCloses(PrintBody(gap, b))
  {
    var head := PrintLine('-', gap, if b.On? then "ON" else "OFF");
    assert head[0] == '-';
    if b.On? && b.values != [] {
      ValuesDoNotClose(gap, b.values);
      assert PrintBody(gap, b) == [head] + (["!TARGET\n"] + PrintValues(gap, b.values));
    }
  }

  // ----------------------------------------------------------- one block

  function Closed(l: Loader, st: State, values: seq<string>): State {
    State(NONE, st.kind, values, if l.load(st.kind, values) then st.plugins + [Loaded(st.kind, values)] else st.plugins)
  }

  lemma CloseParsed(l: Loader, st: State, rest: seq<string>)
    requires st.status.PLUG? || st.status.VAL?
    requires !l.load(st.kind, st.values) || |st.plugins| < MAX_PLUGINS
    ensures ParseLines(l, st, [">\n"] + rest) == ParseLines(l, Closed(l, st, st.values), rest)
  {
    First(l, st, ">\n", rest);
  }

  // The section with the arguments, and the end of the block.
  lemma SectionParsed(l: Loader, st: State, gap: string, values: seq<string>, rest: seq<string>)
    requires AllBlank(gap) && AllWords(values) && 0 < |values| <= MAX_ARGS && st.status.PLUG? && st.values == []
    requires !l.load(st.kind, values) || |st.plugins| < MAX_PLUGINS
    ensures ParseLines(l, st, ["!TARGET\n"] + (PrintValues(gap, values) + ([">\n"] + rest))) ==
            ParseLines(l, Closed(l, st, values), rest)
  {
    var tail := [">\n"] + rest;
    First(l, st, "!TARGET\n", PrintValues(gap, values) + tail);
    ValuesParsed(l, st.(status := NAME), gap, values, tail, PrintValues(gap, values) + tail);
    assert [] + values == values;
    CloseParsed(l, st.(status := VAL, values := values), rest);
  }

  // An accepted block leaves the parser between blocks with the plugin added.
  lemma OnParsed(l: Loader, st: State, gap: string, b: Block, rest: seq<string>)
    requires AllBlank(gap) && Printable(b) && b.On? && st.status.PLUG? && st.kind == b.kind && st.values == []
    requires !l.load(b.kind, b.values) || |st.plugins| < MAX_PLUGINS
    ensures ParseLines(l, st, PrintBody(gap, b) + [">\n"] + rest) == ParseLines(l, Closed(l, st, b.values), rest)
  {
    var tail := [">\n"] + rest;
    if b.values == [] {
      assert PrintBody(gap, b) + [">\n"] + rest == [PrintLine('-', gap, "ON")] + tail;
      SwitchParsed(l, st, gap, tail);
      CloseParsed(l, st, rest);
    } else {
      var section := ["!TARGET\n"] + (PrintValues(gap, b.values) + tail);
      assert PrintBody(gap, b) + [">\n"] + rest == [PrintLine('-', gap, "ON")] + section;
      SwitchParsed(l, st, gap, section);
      SectionParsed(l, st, gap, b.values, rest);
    }
  }

  lemma SwitchParsed(l: Loader, st: State, gap: string, rest: seq<string>)
    requires AllBlank(gap) && st.status.PLUG?
    ensures ParseLines(l, st, [PrintLine('-', gap, "ON")] + rest) == ParseLines(l, st, rest)
  {
    WordOfLine('-', gap, "ON");
    First(l, st, PrintLine('-', gap, "ON"), rest);
  }

  // A block that is off is skipped exactly through its '>'.
  lemma OffParsed(l: Loader, st: State, gap: string, b: Block, rest: seq<string>)
    requires AllBlank(gap) && Printable(b) && b.Off? && st.status.PLUG?
    ensures ParseLines(l, st, PrintBody(gap, b) + [">\n"] + rest) == ParseLines(l, st.(status := NONE), rest)
  {
    var head := PrintLine('-', gap, "OFF");
    WordOfLine('-', gap, "OFF");
    assert PrintBody(gap, b) + [">\n"] + rest == [head] + (b.body + [">\n"] + rest);
    First(l, st, head, b.body + [">\n"] + rest);
    Skipped(l, st.(status := SKIP), b.body, rest);
  }

  lemma BlockParsed(l: Loader, st: State, gap: string, b: Block, rest: seq<string>) returns (st': State)
    requires AllBlank(gap) && Printable(b) && st.status.NONE?
    requires |st.plugins| + |Wanted(l, [b])| <= MAX_PLUGINS
    ensures st'.status.NONE? && st'.plugins == st.plugins + Wanted(l, [b])
    ensures ParseLines(l, st, PrintBlock(gap, b) + rest) == ParseLines(l, st', rest)
  {
    var first, body := PrintLine('<', "", b.kind), PrintBody(gap, b);
    WordOfLine('<', "", b.kind);
    assert PrintBlock(gap, b) + rest == [first] + (body + [">\n"] + rest);
    First(l, st, first, body + [">\n"] + rest);
    assert [b][1..] == [];
    var inside := State(if l.found(b.kind) then PLUG else SKIP, b.kind, [], st.plugins);
    if !l.found(b.kind) {
      BodyDoesNotClose(gap, b);
      Skipped(l, inside, body, rest);
      st' := inside.(status := NONE);
    } else if b.Off? {
      OffParsed(l, inside, gap, b, rest);
      st' := inside.(status := NONE);
    } else {
      OnParsed(l, inside, gap, b, rest);
      st' := Closed(l, inside, b.values);
    }
  }

  lemma WantedFront(l: Loader, blocks: seq<Block>)
    requires blocks != []
    ensures Wanted(l, blocks) == Wanted(l, [blocks[0]]) + Wanted(l, blocks[1..])
  {
    assert [blocks[0]][1..] == [];
  }

  lemma Regrouped(a: seq<Loaded>, b: seq<Loaded>, c: seq<Loaded>)
    ensures a + b + c == a + (b + c)
  {
  }

  predicate AllPrintable(blocks: seq<Block>) { forall i :: 0 <= i < |blocks| ==> Printable(blocks[i]) }

  lemma {:induction false} AllParsed(l: Loader, st: State, gap: string, blocks: seq<Block>, lines: seq<string>)
    requires AllBlank(gap) && AllPrintable(blocks) && st.status.NONE? && lines == PrintAll(gap, blocks)
    requires |st.plugins| + |Wanted(l, blocks)| <= MAX_PLUGINS
    ensures ParseLines(l, st, lines) == Accepted(st.plugins + Wanted(l, blocks))
    decreases |blocks|
  {
    if blocks == [] {
      assert st.plugins + [] == st.plugins;
    } else {
      var others := PrintAll(gap, blocks[1..]);
      WantedFront(l, blocks);
      assert Printable(blocks[0]);
      var st' := BlockParsed(l, st, gap, blocks[0], others);
      AllParsed(l, st', gap, blocks[1..], others);
      Regrouped(st.plugins, Wanted(l, [blocks[0]]), Wanted(l, blocks[1..]));
    }
  }

  // ------------------------------------------------- comments and blank lines

  predicate Filler(line: string) { line != [] && (line[0] == '#' || line[0] == '\n') }

  function Strip(lines: seq<string>): seq<string> {
    if lines == [] then []
    else (if Filler(lines[0]) then [] else [lines[0]]) + Strip(lines[1..])
  }

  /** Comments and blank lines may stand anywhere, inside skipped blocks too. */
  lemma {:induction false} FillersIgnored(l: Loader, st: State, lines: seq<string>)
    ensures ParseLines(l, st, Strip(lines)) == ParseLines(l, st, lines)
    decreases |lines|
  {
    if lines != [] && lines[0] != [] {
      var v := ParseLine(l, st, lines[0]);
      assert lines == [lines[0]] + lines[1..];
      if Filler(lines[0]) {
        assert Strip(lines) == Strip(lines[1..]);
        FillersIgnored(l, st, lines[1..]);
      } else {
        assert ([lines[0]] + Strip(lines[1..]))[1..] == Strip(lines[1..]);
        if v.Go? { FillersIgnored(l, v.st, lines[1..]); }
      }
    }
  }

  // ------------------------------------------------------------ whole texts

  function Concat(lines: seq<string>): string { if lines == [] then "" else lines[0] + Concat(lines[1..]) }

  // One line of a file: ends in its only newline and fits the buffer.
  predicate IsLine(line: string) {
    0 < |line| < BFSZ && line[|line| - 1] == '\n' && forall i :: 0 <= i < |line| - 1 ==> line[i] != '\n'
  }

  lemma {:induction false} LengthOfLine(line: string, rest: string, n: nat)
    requires 0 < |line| <= n && line[|line| - 1] == '\n' && forall i :: 0 <= i < |line| - 1 ==> line[i] != '\n'
    ensures LineLength(line + rest, n) == |line|
    decreases |line|
  {
    if |line| > 1 {
      assert (line + rest)[0] == line[0] != '\n';
      assert (line + rest)[1..] == line[1..] + rest;
      LengthOfLine(line[1..], rest, n - 1);
    }
  }

  lemma {:induction false} LinesOfConcat(lines: seq<string>)
    requires forall i :: 0 <= i < |lines| ==> IsLine(lines[i])
    ensures Lines(Concat(lines)) == lines
    decreases |lines|
  {
    if lines != [] {
      var line, rest := lines[0], Concat(lines[1..]);
      LengthOfLine(line, rest, BFSZ - 1);
      assert (line + rest)[..|line|] == line && (line + rest)[|line|..] == rest;
      LinesOfConcat(lines[1..]);
    }
  }

  /** Round trip: a file of short lines that, comments and blank lines aside, is the printed form of some
      blocks parses to exactly the plugins those blocks ask for, in order, with their arguments. */
  lemma RoundTrip(l: Loader, gap: string, blocks: seq<Block>, lines: seq<string>)
    requires AllBlank(gap) && AllPrintable(blocks)
    requires |Wanted(l, blocks)| <= MAX_PLUGINS
    requires (forall i :: 0 <= i < |lines| ==> IsLine(lines[i])) && Strip(lines) == Strip(PrintAll(gap, blocks))
    ensures Parse(l, Concat(lines)) == Accepted(Wanted(l, blocks))
  {
    LinesOfConcat(lines);
    FillersIgnored(l, START, lines);
    FillersIgnored(l, START, PrintAll(gap, blocks));
    AllParsed(l, START, gap, blocks, PrintAll(gap, blocks));
    assert [] + Wanted(l, blocks) == Wanted(l, blocks);
  }

  // ---------------------------------------------------- whatever the text

  predicate Proper(l: Loader, p: Loaded) {
    && l.found(p.kind) && l.load(p.kind, p.values) && IsWord(p.kind)
    && |p.values| <= MAX_ARGS && forall i :: 0 <= i < |p.values| ==> IsWord(p.values[i])
  }

  ghost predicate Good(l: Loader, st: State) {
    && |st.plugins| <= MAX_PLUGINS && (forall i :: 0 <= i < |st.plugins| ==> Proper(l, st.plugins[i]))
    && (st.status.PLUG? || st.status.NAME? || st.status.VAL? ==> l.found(st.kind) && IsWord(st.kind))
    && |st.values| <= MAX_ARGS && (forall i :: 0 <= i < |st.values| ==> IsWord(st.values[i]))
    && (st.status.PLUG? || st.status.NAME? ==> st.values == [])
    && (st.status.VAL? ==> st.values != [])
  }

  lemma {:induction false} RunIsWord(s: string)
    ensures Run(s) == [] || IsWord(Run(s))
  {
    if s != [] && !Blank(s[0]) { RunIsWord(s[1..]); }
  }

  lemma {:induction false} TokenIsWord(s: string)
    ensures Token(s) == [] || IsWord(Token(s))
  {
    if s != [] {
      if Blank(s[0]) { TokenIsWord(s[1..]); } else { RunIsWord(s); }
    }
  }

  lemma LineKeepsGood(l: Loader, st: State, line: string)
    requires Good(l, st) && line != [] && ParseLine(l, st, line).Go?
    ensures Good(l, ParseLine(l, st, line).st)
  {
    TokenIsWord(line[1..]);
  }

  lemma {:induction false} AcceptedAreProper(l: Loader, st: State, lines: seq<string>)
    requires Good(l, st) && ParseLines(l, st, lines).Accepted?
    ensures var ps := ParseLines(l, st, lines).plugins; |ps| <= MAX_PLUGINS && forall i :: 0 <= i < |ps| ==> Proper(l, ps[i])
    decreases |lines|
  {
    if lines != [] && lines[0] != [] {
      LineKeepsGood(l, st, lines[0]);
      AcceptedAreProper(l, ParseLine(l, st, lines[0]).st, lines[1..]);
    }
  }

  /** Whatever the file holds, what it is accepted as is at most five plugins whose libraries were found and
      whose load functions took their (at most ten, never empty) arguments. */
  lemma AcceptedIsSound(l: Loader, text: string)
    requires Parse(l, text).Accepted?
    ensures var ps := Parse(l, text).plugins; |ps| <= MAX_PLUGINS && forall i :: 0 <= i < |ps| ==> Proper(l, ps[i])
  {
    AcceptedAreProper(l, START, Lines(text));
  }
}
