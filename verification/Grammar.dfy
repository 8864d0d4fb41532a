/**
 Which configurations the parser accepts: a grammar of blocks, stated without the
 parser's states, and the proof that a text is accepted exactly if it is derivable,
 with exactly the plugins its blocks ask for.
 */
module Grammar {
  import opened Util
  import opened Sparser

  // ------------------------------------------------------------ the grammar

  // The mark a line starts with and the word behind it.
  predicate Marked(line: string, mark: char) { line != [] && line[0] == mark }

  function Word(line: string): string { if line == [] then [] else Token(line[1..]) }

  predicate OnSwitch(line: string) { Marked(line, '-') && Starts(Word(line), "ON") }
  predicate OffSwitch(line: string) { Marked(line, '-') && Starts(Word(line), "OFF") }
  predicate ValueLine(line: string) { Marked(line, '-') && Word(line) != [] }

  // What stands in a block behind its switches: anything if its library is missing or it is switched off,
  // or nothing, or a named section of arguments.
  datatype Section =
    | Absent(skipped: seq<string>)
    | Bare
    | SwitchedOff(switch: string, skipped: seq<string>)
    | Named(name: string, values: seq<string>)

  // A block up to its closing line.
  datatype Stanza = Stanza(open: string, switches: seq<string>, section: Section)

  predicate Derivable(l: Loader, s: Stanza) {
    && Marked(s.open, '<') && Word(s.open) != []
    && (forall i :: 0 <= i < |s.switches| ==> OnSwitch(s.switches[i]))
    && (l.found(Word(s.open)) <==> !s.section.Absent?)
    && match s.section
       case Absent(skipped) => s.switches == [] && NoneCloses(skipped)
       case Bare => true
       case SwitchedOff(switch, skipped) => OffSwitch(switch) && NoneCloses(skipped)
       case Named(name, values) =>
         Marked(name, '!') && |values| <= MAX_ARGS && forall i :: 0 <= i < |values| ==> ValueLine(values[i])
  }

  // A section that was named needs an argument before its block may close.
  predicate Closable(s: Stanza) { s.section.Named? ==> s.section.values != [] }

  function SectionLines(section: Section): seq<string> {
    match section
    case Absent(skipped) => skipped
    case Bare => []
    case SwitchedOff(switch, skipped) => [switch] + skipped
    case Named(name, values) => [name] + values
  }

  function LinesOf(s: Stanza): seq<string> { [s.open] + s.switches + SectionLines(s.section) }

  // A whole block, and what the file ends with.
  datatype Whole = Whole(stanza: Stanza, close: string)
  datatype Part = Between | Within(stanza: Stanza)

  function Flat(blocks: seq<Whole>): seq<string> {
    if blocks == [] then []
    else
      var last := blocks[|blocks| - 1];
      Flat(blocks[..|blocks| - 1]) + (LinesOf(last.stanza) + [last.close])
  }

  function PartLines(part: Part): seq<string> { if part.Between? then [] else LinesOf(part.stanza) }

  // The lines are these blocks and, perhaps, the beginning of another.
  ghost predicate Reads(l: Loader, lines: seq<string>, blocks: seq<Whole>, part: Part) {
    && lines == Flat(blocks) + PartLines(part)
    && (forall i :: 0 <= i < |blocks| ==>
          Derivable(l, blocks[i].stanza) && Closable(blocks[i].stanza) && Marked(blocks[i].close, '>'))
    && (part.Within? ==> Derivable(l, part.stanza))
  }

  function Words(lines: seq<string>): seq<string> {
    if lines == [] then [] else Words(lines[..|lines| - 1]) + [Word(lines[|lines| - 1])]
  }

  function Values(s: Stanza): seq<string> { if s.section.Named? then Words(s.section.values) else [] }

  // Whether the block, once closed, is given to its module's load function.
  predicate Active(s: Stanza) { s.section.Bare? || s.section.Named? }

  // What a block adds to the plugins.
  function Adds(l: Loader, s: Stanza): seq<Loaded> {
    if Active(s) && l.load(Word(s.open), Values(s)) then [Loaded(Word(s.open), Values(s))] else []
  }

  function PluginsOf(l: Loader, blocks: seq<Whole>): seq<Loaded> {
    if blocks == [] then [] else PluginsOf(l, blocks[..|blocks| - 1]) + Adds(l, blocks[|blocks| - 1].stanza)
  }

  // -------------------------------------------------------- one line more

  // A line behind a stanza that does not close it.
  function Extend(s: Stanza, line: string): Stanza {
    match s.section
    case Absent(skipped) => s.(section := Absent(skipped + [line]))
    case Bare =>
      if OffSwitch(line) then s.(section := SwitchedOff(line, []))
      else if Marked(line, '!') then s.(section := Named(line, []))
      else s.(switches := s.switches + [line])
    case SwitchedOff(switch, skipped) => s.(section := SwitchedOff(switch, skipped + [line]))
    case Named(name, values) => s.(section := Named(name, values + [line]))
  }

  function Opening(l: Loader, line: string): Stanza { Stanza(line, [], if l.found(Word(line)) then Bare else Absent([])) }

  // The line may follow, with room for the plugin it may complete.
  predicate May(l: Loader, plugins: seq<Loaded>, part: Part, line: string) {
    match part
    case Between => Derivable(l, Opening(l, line))
    case Within(s) =>
      if Marked(line, '>') then Closable(s) && |plugins + Adds(l, s)| <= MAX_PLUGINS else Derivable(l, Extend(s, line))
  }

  function NextPart(l: Loader, part: Part, line: string): Part {
    if part.Between? then Within(Opening(l, line)) else if Marked(line, '>') then Between else Within(Extend(part.stanza, line))
  }

  function NextPlugins(l: Loader, plugins: seq<Loaded>, part: Part, line: string): seq<Loaded> {
    if part.Within? && Marked(line, '>') then plugins + Adds(l, part.stanza) else plugins
  }

  lemma ExtendLines(s: Stanza, line: string)
    ensures LinesOf(Extend(s, line)) == LinesOf(s) + [line]
  {
  }

  // ------------------------------------------------------ the parser's states

  // The parser, having read `part` of a block, with these plugins before it.
  ghost predicate Stands(st: State, plugins: seq<Loaded>, part: Part) {
    && st.plugins == plugins
    && match part
       case Between => st.status.NONE?
       case Within(s) =>
         && (Active(s) ==> st.kind == Word(s.open) && st.values == Values(s))
         && match s.section
            case Absent(_) => st.status.SKIP?
            case Bare => st.status.PLUG?
            case SwitchedOff(_, _) => st.status.SKIP?
            case Named(_, values) => if values == [] then st.status.NAME? else st.status.VAL?
  }

  lemma WordsLast(lines: seq<string>, line: string)
    ensures Words(lines + [line]) == Words(lines) + [Word(line)]
  {
    assert (lines + [line])[..|lines|] == lines;
  }

  lemma {:induction false} WordsLength(lines: seq<string>)
    ensures |Words(lines)| == |lines|
  {
    if lines != [] { WordsLength(lines[..|lines| - 1]); }
  }

  lemma Switches(word: string)
    ensures Starts(word, "ON") ==> !Starts(word, "OFF")
  {
    if Starts(word, "ON") { assert word[..2][1] == word[1] == 'N'; }
    if Starts(word, "OFF") { assert word[..3][1] == word[1] == 'F'; }
  }

  lemma BetweenLine(l: Loader, st: State, plugins: seq<Loaded>, line: string)
    requires Stands(st, plugins, Between) && line != [] && !Filler(line)
    ensures ParseLine(l, st, line).Go? <==> May(l, plugins, Between, line)
    ensures ParseLine(l, st, line).Go? ==> Stands(ParseLine(l, st, line).st, plugins, NextPart(l, Between, line))
  {
  }

  lemma SkippedLine(l: Loader, st: State, plugins: seq<Loaded>, s: Stanza, line: string)
    requires Stands(st, plugins, Within(s)) && Derivable(l, s) && !Active(s) && line != [] && |plugins| <= MAX_PLUGINS
    ensures ParseLine(l, st, line).Go? && May(l, plugins, Within(s), line)
    ensures Stands(ParseLine(l, st, line).st, NextPlugins(l, plugins, Within(s), line), NextPart(l, Within(s), line))
  {
    assert Adds(l, s) == [] && plugins + [] == plugins;
  }

  lemma BareLine(l: Loader, st: State, plugins: seq<Loaded>, s: Stanza, line: string)
    requires Stands(st, plugins, Within(s)) && Derivable(l, s) && s.section.Bare? && line != [] && !Filler(line)
    requires !Marked(line, '>')
    ensures ParseLine(l, st, line).Go? <==> May(l, plugins, Within(s), line)
    ensures ParseLine(l, st, line).Go? ==> Stands(ParseLine(l, st, line).st, plugins, NextPart(l, Within(s), line))
  {
    Switches(Word(line));
    var s' := Extend(s, line);
    if s'.section.Bare? {
      assert s'.switches[|s.switches|] == line;
      assert forall i :: 0 <= i < |s.switches| ==> s'.switches[i] == s.switches[i];
    }
  }

  lemma NamedLine(l: Loader, st: State, plugins: seq<Loaded>, s: Stanza, line: string)
    requires Stands(st, plugins, Within(s)) && Derivable(l, s) && s.section.Named? && line != [] && !Filler(line)
    requires !Marked(line, '>')
    ensures ParseLine(l, st, line).Go? <==> May(l, plugins, Within(s), line)
    ensures ParseLine(l, st, line).Go? ==> Stands(ParseLine(l, st, line).st, plugins, NextPart(l, Within(s), line))
  {
    var values := s.section.values;
    WordsLast(values, line);
    WordsLength(values);
    assert (values + [line])[|values|] == line;
    assert forall i :: 0 <= i < |values| ==> (values + [line])[i] == values[i];
  }

  lemma ClosingLine(l: Loader, st: State, plugins: seq<Loaded>, s: Stanza, line: string)
    requires Stands(st, plugins, Within(s)) && Derivable(l, s) && Active(s) && Marked(line, '>') && |plugins| <= MAX_PLUGINS
    ensures ParseLine(l, st, line).Go? <==> May(l, plugins, Within(s), line)
    ensures ParseLine(l, st, line).Go? ==> Stands(ParseLine(l, st, line).st, plugins + Adds(l, s), Between)
  {
  }

  // The parser goes on exactly if the grammar does.
  lemma OneLine(l: Loader, st: State, plugins: seq<Loaded>, part: Part, line: string)
    requires Stands(st, plugins, part) && (part.Within? ==> Derivable(l, part.stanza)) && line != [] && !Filler(line)
    requires |plugins| <= MAX_PLUGINS
    ensures ParseLine(l, st, line).Go? <==> May(l, plugins, part, line)
    ensures ParseLine(l, st, line).Go? ==>
              Stands(ParseLine(l, st, line).st, NextPlugins(l, plugins, part, line), NextPart(l, part, line))
  {
    match part
    case Between => BetweenLine(l, st, plugins, line);
    case Within(s) =>
      if !Active(s) { SkippedLine(l, st, plugins, s, line); }
      else if Marked(line, '>') { ClosingLine(l, st, plugins, s, line); }
      else if s.section.Bare? { BareLine(l, st, plugins, s, line); }
      else { NamedLine(l, st, plugins, s, line); }
  }

  // ------------------------------------------------------------- all lines

  // The parser's state after all lines, or the outcome at which it stopped.
  function Fold(l: Loader, st: State, lines: seq<string>): Verdict
    requires forall i :: 0 <= i < |lines| ==> lines[i] != []
  {
    if lines == [] then Go(st)
    else
      match Fold(l, st, lines[..|lines| - 1])
      case Go(st') => ParseLine(l, st', lines[|lines| - 1])
      case Stop(out) => Stop(out)
  }

  lemma {:induction false} FoldFirst(l: Loader, st: State, lines: seq<string>)
    requires lines != [] && forall i :: 0 <= i < |lines| ==> lines[i] != []
    ensures Fold(l, st, lines) ==
            match ParseLine(l, st, lines[0]) case Go(st') => Fold(l, st', lines[1..]) case Stop(out) => Stop(out)
    decreases |lines|
  {
    var n := |lines| - 1;
    if n > 0 {
      FoldFirst(l, st, lines[..n]);
      assert lines[..n][1..] == lines[1..][..n - 1];
    } else {
      assert lines[..n] == [] && lines[1..] == [];
    }
  }

  lemma {:induction false} ParseLinesFold(l: Loader, st: State, lines: seq<string>)
    requires forall i :: 0 <= i < |lines| ==> lines[i] != []
    ensures ParseLines(l, st, lines) == match Fold(l, st, lines) case Go(st') => Accepted(st'.plugins) case Stop(out) => out
    decreases |lines|
  {
    if lines != [] {
      FoldFirst(l, st, lines);
      match ParseLine(l, st, lines[0])
      case Go(st') => ParseLinesFold(l, st', lines[1..]);
      case Stop(_) =>
    }
  }

  // Lines without comments and blank lines.
  ghost predicate Significant(lines: seq<string>) { forall i :: 0 <= i < |lines| ==> lines[i] != [] && !Filler(lines[i]) }

  lemma PluginsLast(l: Loader, blocks: seq<Whole>, last: Whole)
    ensures PluginsOf(l, blocks + [last]) == PluginsOf(l, blocks) + Adds(l, last.stanza)
    ensures Flat(blocks + [last]) == Flat(blocks) + (LinesOf(last.stanza) + [last.close])
  {
    assert (blocks + [last])[..|blocks|] == blocks;
  }

  // Reading one line more.
  function NextBlocks(part: Part, blocks: seq<Whole>, line: string): seq<Whole> {
    if part.Within? && Marked(line, '>') then blocks + [Whole(part.stanza, line)] else blocks
  }

  predicate DerivableWhole(l: Loader, b: Whole) { Derivable(l, b.stanza) && Closable(b.stanza) && Marked(b.close, '>') }

  lemma ReadsWhole(l: Loader, lines: seq<string>, blocks: seq<Whole>, last: Whole)
    requires DerivableWhole(l, last)
    ensures Reads(l, lines + [last.close], blocks + [last], Between) <==> Reads(l, lines, blocks, Within(last.stanza))
  {
    var all := blocks + [last];
    PluginsLast(l, blocks, last);
    assert forall i :: 0 <= i < |blocks| ==> all[i] == blocks[i];
    Moved(lines, last.close, Flat(blocks), LinesOf(last.stanza));
    assert Flat(all) + PartLines(Between) == Flat(all);
  }

  lemma Moved(lines: seq<string>, line: string, before: seq<string>, stanza: seq<string>)
    ensures lines + [line] == before + (stanza + [line]) <==> lines == before + stanza
  {
    assert before + (stanza + [line]) == (before + stanza) + [line];
    if lines + [line] == (before + stanza) + [line] {
      assert (lines + [line])[..|lines|] == lines && ((before + stanza) + [line])[..|before + stanza|] == before + stanza;
    }
  }

  lemma ReadsPart(l: Loader, lines: seq<string>, blocks: seq<Whole>, part: Part, line: string, part': Part)
    requires part'.Within? && Derivable(l, part'.stanza) && PartLines(part) + [line] == LinesOf(part'.stanza)
    requires part.Within? ==> Derivable(l, part.stanza)
    ensures Reads(l, lines + [line], blocks, part') <==> Reads(l, lines, blocks, part)
  {
    Moved(lines, line, Flat(blocks), PartLines(part));
  }

  lemma ReadsOn(l: Loader, lines: seq<string>, blocks: seq<Whole>, part: Part, line: string)
    requires Reads(l, lines, blocks, part) && May(l, PluginsOf(l, blocks), part, line)
    ensures Reads(l, lines + [line], NextBlocks(part, blocks, line), NextPart(l, part, line))
    ensures PluginsOf(l, NextBlocks(part, blocks, line)) == NextPlugins(l, PluginsOf(l, blocks), part, line)
  {
    if part.Within? && Marked(line, '>') {
      PluginsLast(l, blocks, Whole(part.stanza, line));
      ReadsWhole(l, lines, blocks, Whole(part.stanza, line));
    } else {
      if part.Within? { ExtendLines(part.stanza, line); }
      ReadsPart(l, lines, blocks, part, line, NextPart(l, part, line));
    }
  }

  // What was read before the last line.
  function Shrink(s: Stanza): Part {
    match s.section
    case Absent(skipped) => if skipped == [] then Between else Within(s.(section := Absent(skipped[..|skipped| - 1])))
    case Bare => if s.switches == [] then Between else Within(s.(switches := s.switches[..|s.switches| - 1]))
    case SwitchedOff(switch, skipped) =>
      Within(s.(section := if skipped == [] then Bare else SwitchedOff(switch, skipped[..|skipped| - 1])))
    case Named(name, values) => Within(s.(section := if values == [] then Bare else Named(name, values[..|values| - 1])))
  }

  lemma ShrinkSkipped(l: Loader, s: Stanza)
    requires Derivable(l, s) && !Active(s)
    ensures var part, line := Shrink(s), LinesOf(s)[|LinesOf(s)| - 1];
            (part.Within? ==> Derivable(l, part.stanza)) && !Marked(line, '>') && NextPart(l, part, line) == Within(s)
  {
    var line := LinesOf(s)[|LinesOf(s)| - 1];
    var skipped := s.section.skipped;
    if skipped != [] { assert skipped[..|skipped| - 1] + [line] == skipped; }
  }

  lemma ShrinkActive(l: Loader, s: Stanza)
    requires Derivable(l, s) && Active(s)
    ensures var part, line := Shrink(s), LinesOf(s)[|LinesOf(s)| - 1];
            (part.Within? ==> Derivable(l, part.stanza)) && !Marked(line, '>') && NextPart(l, part, line) == Within(s)
  {
    var line := LinesOf(s)[|LinesOf(s)| - 1];
    if s.section.Named? {
      var values := s.section.values;
      if values != [] { assert values[..|values| - 1] + [line] == values; }
    } else if s.switches != [] {
      assert line == s.switches[|s.switches| - 1];
      Switches(Word(line));
      assert s.switches[..|s.switches| - 1] + [line] == s.switches;
    }
  }

  lemma ShrinkExtends(l: Loader, plugins: seq<Loaded>, s: Stanza)
    requires Derivable(l, s)
    ensures var part, line := Shrink(s), LinesOf(s)[|LinesOf(s)| - 1];
            && (part.Within? ==> Derivable(l, part.stanza)) && !Marked(line, '>')
            && May(l, plugins, part, line) && NextPart(l, part, line) == Within(s)
            && PartLines(part) + [line] == LinesOf(s)
  {
    var part, line := Shrink(s), LinesOf(s)[|LinesOf(s)| - 1];
    if Active(s) { ShrinkActive(l, s); } else { ShrinkSkipped(l, s); }
    if part.Within? { ExtendLines(part.stanza, line); }
  }

  // Every derivation of lines and one more comes from one of the lines before.
  lemma ReadsBack(l: Loader, lines: seq<string>, line: string, blocks: seq<Whole>, part: Part)
    returns (blocks': seq<Whole>, part': Part)
    requires Reads(l, lines + [line], blocks, part) && |PluginsOf(l, blocks)| <= MAX_PLUGINS
    ensures Reads(l, lines, blocks', part') && May(l, PluginsOf(l, blocks'), part', line)
    ensures |PluginsOf(l, blocks')| <= MAX_PLUGINS
    ensures NextBlocks(part', blocks', line) == blocks && NextPart(l, part', line) == part
  {
    LastLine(lines, line, Flat(blocks), PartLines(part));
    if part.Within? {
      blocks', part' := blocks, Shrink(part.stanza);
      ShrinkExtends(l, PluginsOf(l, blocks), part.stanza);
      ReadsPart(l, lines, blocks, part', line, part);
    } else {
      blocks', part' := ReadsBackWhole(l, lines, line, blocks);
    }
  }

  lemma ReadsBackWhole(l: Loader, lines: seq<string>, line: string, blocks: seq<Whole>)
    returns (blocks': seq<Whole>, part: Part)
    requires Reads(l, lines + [line], blocks, Between) && blocks != [] && |PluginsOf(l, blocks)| <= MAX_PLUGINS
    ensures Reads(l, lines, blocks', part) && May(l, PluginsOf(l, blocks'), part, line)
    ensures |PluginsOf(l, blocks')| <= MAX_PLUGINS
    ensures NextBlocks(part, blocks', line) == blocks && NextPart(l, part, line) == Between
  {
    var last := blocks[|blocks| - 1];
    blocks', part := blocks[..|blocks| - 1], Within(last.stanza);
    assert blocks' + [last] == blocks;
    PluginsLast(l, blocks', last);
    assert DerivableWhole(l, last);
    assert lines + [line] == Flat(blocks') + (LinesOf(last.stanza) + [last.close]);
    LastLine(lines, line, Flat(blocks'), LinesOf(last.stanza) + [last.close]);
    ReadsWhole(l, lines, blocks', last);
  }

  lemma LastLine(lines: seq<string>, line: string, before: seq<string>, after: seq<string>)
    requires lines + [line] == before + after
    ensures after != [] ==> after[|after| - 1] == line
    ensures after == [] ==> before != []
  {
    var all := lines + [line];
    assert all[|all| - 1] == line;
  }

  // -------------------------------------------------------- the main results

  // The parser and the derivation take one line more.
  lemma LineRead(l: Loader, before: seq<string>, line: string, lines: seq<string>, st: State, blocks: seq<Whole>, part: Part)
    requires Reads(l, before, blocks, part) && |PluginsOf(l, blocks)| <= MAX_PLUGINS && Stands(st, PluginsOf(l, blocks), part)
    requires line != [] && !Filler(line) && lines == before + [line]
    ensures ParseLine(l, st, line).Go? <==> May(l, PluginsOf(l, blocks), part, line)
    ensures ParseLine(l, st, line).Go? ==>
              var blocks', part' := NextBlocks(part, blocks, line), NextPart(l, part, line);
              && Reads(l, lines, blocks', part') && |PluginsOf(l, blocks')| <= MAX_PLUGINS
              && Stands(ParseLine(l, st, line).st, PluginsOf(l, blocks'), part')
  {
    OneLine(l, st, PluginsOf(l, blocks), part, line);
    if ParseLine(l, st, line).Go? { ReadsOn(l, before, blocks, part, line); }
  }

  // A parser that goes on has read a derivable text.
  lemma {:induction false} FoldReads(l: Loader, lines: seq<string>, st: State) returns (blocks: seq<Whole>, part: Part)
    requires Significant(lines) && Fold(l, START, lines) == Go(st)
    ensures Reads(l, lines, blocks, part) && |PluginsOf(l, blocks)| <= MAX_PLUGINS && Stands(st, PluginsOf(l, blocks), part)
    decreases |lines|
  {
    if lines == [] {
      blocks, part := [], Between;
    } else {
      var n := |lines| - 1;
      var before, line := lines[..n], lines[n];
      assert lines == before + [line];
      var st0 := Fold(l, START, before).st;
      var blocks0, part0 := FoldReads(l, before, st0);
      LineRead(l, before, line, lines, st0, blocks0, part0);
      blocks, part := NextBlocks(part0, blocks0, line), NextPart(l, part0, line);
    }
  }

  // A derivable text is read to its end.
  lemma {:induction false} ReadsFold(l: Loader, lines: seq<string>, blocks: seq<Whole>, part: Part) returns (st: State)
    requires Significant(lines) && Reads(l, lines, blocks, part) && |PluginsOf(l, blocks)| <= MAX_PLUGINS
    ensures Fold(l, START, lines) == Go(st) && Stands(st, PluginsOf(l, blocks), part)
    decreases |lines|
  {
    if lines == [] {
      NothingRead(l, blocks, part);
      st := START;
    } else {
      var n := |lines| - 1;
      var before, line := lines[..n], lines[n];
      assert before + [line] == lines;
      var blocks0, part0 := ReadsBack(l, before, line, blocks, part);
      var st0 := ReadsFold(l, before, blocks0, part0);
      LineRead(l, before, line, lines, st0, blocks0, part0);
      st := ParseLine(l, st0, line).st;
    }
  }

  lemma NothingRead(l: Loader, blocks: seq<Whole>, part: Part)
    requires Flat(blocks) + PartLines(part) == []
    ensures blocks == [] && part == Between
  {
  }

  ghost predicate Derives(l: Loader, lines: seq<string>, plugins: seq<Loaded>) {
    exists blocks, part :: Reads(l, lines, blocks, part) && plugins == PluginsOf(l, blocks) && |plugins| <= MAX_PLUGINS
  }

  lemma {:induction false} StripIsSignificant(lines: seq<string>)
    requires forall i :: 0 <= i < |lines| ==> lines[i] != []
    ensures Significant(Strip(lines))
    decreases |lines|
  {
    if lines != [] { StripIsSignificant(lines[1..]); }
  }

  lemma {:induction false} LinesAreNotEmpty(text: string)
    ensures forall i :: 0 <= i < |Lines(text)| ==> Lines(text)[i] != []
    decreases |text|
  {
    if text != [] { LinesAreNotEmpty(text[LineLength(text, BFSZ - 1)..]); }
  }

  /** Exactly the derivable texts are accepted: for every text and every list of plugins, the parser accepts the text
      with these plugins iff its lines, comments and blank lines aside, are blocks of the grammar (the last
      perhaps unfinished) that ask for exactly these, at most five. */
  lemma AcceptedIffDerivable(l: Loader, text: string, plugins: seq<Loaded>)
    ensures Parse(l, text) == Accepted(plugins) <==> Derives(l, Strip(Lines(text)), plugins)
  {
    var lines := Strip(Lines(text));
    FillersIgnored(l, START, Lines(text));
    LinesAreNotEmpty(text);
    StripIsSignificant(Lines(text));
    ParseLinesFold(l, START, lines);
    if Parse(l, text) == Accepted(plugins) {
      FoldAccepts(l, lines);
      var blocks, part := FoldReads(l, lines, Fold(l, START, lines).st);
      assert Reads(l, lines, blocks, part);
    }
    if Derives(l, lines, plugins) {
      var blocks, part :| Reads(l, lines, blocks, part) && plugins == PluginsOf(l, blocks) && |plugins| <= MAX_PLUGINS;
      var st := ReadsFold(l, lines, blocks, part);
    }
  }

  // A line does not end the parse with acceptance.
  lemma {:induction false} FoldAccepts(l: Loader, lines: seq<string>)
    requires Significant(lines)
    ensures Fold(l, START, lines).Stop? ==> !Fold(l, START, lines).out.Accepted?
    decreases |lines|
  {
    if lines != [] { FoldAccepts(l, lines[..|lines| - 1]); }
  }

  // The line is of a kind that may follow, but overruns a buffer or lacks its word.
  predicate Overruns(l: Loader, plugins: seq<Loaded>, part: Part, line: string) {
    match part
    case Between => Marked(line, '<') && Word(line) == []
    case Within(s) =>
      if Marked(line, '>') then Closable(s) && |plugins + Adds(l, s)| > MAX_PLUGINS
      else
        && Marked(line, '-') && Active(s)
        && (Word(line) == [] || (s.section.Named? && |s.section.values| >= MAX_ARGS))
  }

  lemma StopsAs(l: Loader, st: State, plugins: seq<Loaded>, part: Part, line: string)
    requires Stands(st, plugins, part) && (part.Within? ==> Derivable(l, part.stanza)) && line != [] && !Filler(line)
    requires |plugins| <= MAX_PLUGINS && !May(l, plugins, part, line)
    ensures ParseLine(l, st, line) == Stop(if Overruns(l, plugins, part, line) then Undefined else Rejected)
  {
    OneLine(l, st, plugins, part, line);
    if part.Within? && part.stanza.section.Named? { WordsLength(part.stanza.section.values); }
  }

  lemma {:induction false} StoppedStays(l: Loader, lines: seq<string>, more: seq<string>)
    requires Significant(lines) && Significant(lines + more) && Fold(l, START, lines).Stop?
    ensures Fold(l, START, lines + more) == Fold(l, START, lines)
    decreases |more|
  {
    if more == [] {
      assert lines + more == lines;
    } else {
      var all, before := lines + more, lines + more[..|more| - 1];
      assert all[..|all| - 1] == before;
      assert forall i :: 0 <= i < |before| ==> before[i] == all[i];
      StoppedStays(l, lines, more[..|more| - 1]);
    }
  }

  /** How a text fails: at the first line that may not follow the blocks before it, whatever comes after, with -1
      unless the line only overran a buffer or lacked its word, which leaves the outcome undefined. */
  lemma RejectedAt(l: Loader, text: string, lines: seq<string>, line: string, more: seq<string>, blocks: seq<Whole>, part: Part)
    requires Strip(Lines(text)) == lines + [line] + more
    requires Reads(l, lines, blocks, part) && |PluginsOf(l, blocks)| <= MAX_PLUGINS && !May(l, PluginsOf(l, blocks), part, line)
    ensures Parse(l, text) == if Overruns(l, PluginsOf(l, blocks), part, line) then Undefined else Rejected
  {
    var all := lines + [line] + more;
    FillersIgnored(l, START, Lines(text));
    LinesAreNotEmpty(text);
    StripIsSignificant(Lines(text));
    ParseLinesFold(l, START, all);
    assert forall i :: 0 <= i < |lines| ==> lines[i] == all[i];
    assert all[|lines|] == line;
    var st := ReadsFold(l, lines, blocks, part);
    StopsAs(l, st, PluginsOf(l, blocks), part, line);
    assert (lines + [line])[..|lines|] == lines;
    assert forall i :: 0 <= i <= |lines| ==> (lines + [line])[i] == all[i];
    StoppedStays(l, lines + [line], more);
  }
}
