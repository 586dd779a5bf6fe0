/** The minimal markdown parser of investigation reports: lines grouped into blocks. */
module Markdown {

  datatype Block =
    | H1(text: string)
    | H2(text: string)
    | H3(text: string)
    | P(lines: seq<string>)
    | Ul(items: seq<string>)
    | Ol(items: seq<string>)
    | Code(text: string)

  /** White space and line ends, as `trim` and `\s` see them. */
  predicate IsSpace(c: char) {
    c in {'\t', '\n', 11 as char, 12 as char, '\r', ' ', 0xA0 as char, 0x1680 as char, 0x2028 as char, 0x2029 as char,
          0x202F as char, 0x205F as char, 0x3000 as char, 0xFEFF as char} || 0x2000 as char <= c <= 0x200A as char
  }

  predicate IsBlank(s: string) {
    forall i :: 0 <= i < |s| ==> IsSpace(s[i])
  }

  predicate IsFence(line: string) { "```" <= line }

  predicate IsRule(line: string) { "---" <= line && IsBlank(line[3..]) }

  predicate IsBullet(line: string) { "- " <= line }

  function LeadingDigits(s: string): (n: nat)
    ensures n <= |s|
  {
    if s != "" && '0' <= s[0] <= '9' then 1 + LeadingDigits(s[1..]) else 0
  }

  /** Length of a match of digits, a dot and one white space at the start of the line; 0 if there is none. */
  function Marker(line: string): (n: nat)
    ensures n <= |line|
  {
    var d := LeadingDigits(line);
    if d > 0 && d + 1 < |line| && line[d] == '.' && IsSpace(line[d + 1]) then d + 2 else 0
  }

  predicate IsNumbered(line: string) { Marker(line) > 0 }

  predicate IsBlockStart(line: string) {
    "# " <= line || "## " <= line || "### " <= line || IsBullet(line) || IsFence(line) || IsNumbered(line)
  }

  /** A line that goes on with the paragraph before it. */
  predicate ContinuesParagraph(line: string) {
    !IsBlank(line) && !IsBlockStart(line)
  }

  datatype Kind = Fence | Blank | Rule | Head1 | Head2 | Head3 | Bullet | Number | Text

  /** The tests on a line where a block may begin, in order. */
  function KindOf(line: string): Kind {
    if IsFence(line) then Fence
    else if IsBlank(line) then Blank
    else if IsRule(line) then Rule
    else if "# " <= line then Head1
    else if "## " <= line then Head2
    else if "### " <= line then Head3
    else if IsBullet(line) then Bullet
    else if IsNumbered(line) then Number
    else Text
  }

  /** A paragraph goes on over lines that would begin one, and over rules. */
  lemma ContinuesExactlyWhen(line: string)
    ensures ContinuesParagraph(line) <==> KindOf(line) in {Text, Rule}
  {
    if IsRule(line) {
      assert line[0] == line[1] == '-';
      assert LeadingDigits(line) == 0;
    }
    hide IsSpace, IsBlank, Marker;
  }

  /** A numbered item begins with digits, a dot and white space. */
  lemma NumberedExactlyWhen(line: string)
    ensures IsNumbered(line) <==>
            exists d :: 0 < d && d + 1 < |line| && AllDigits(line[..d]) && line[d] == '.' && IsSpace(line[d + 1])
  {
    DigitsLead(line);
    hide IsSpace;
    if d :| 0 < d && d + 1 < |line| && AllDigits(line[..d]) && line[d] == '.' && IsSpace(line[d + 1]) {
      assert line[..d][d - 1] == line[d - 1];
      DigitsEndAt(line, d);
    }
  }

  predicate AllDigits(s: string) {
    forall i :: 0 <= i < |s| ==> '0' <= s[i] <= '9'
  }

  lemma {:induction false} DigitsLead(s: string)
    ensures AllDigits(s[..LeadingDigits(s)])
  {
    if s != "" && '0' <= s[0] <= '9' {
      DigitsLead(s[1..]);
      assert s[..LeadingDigits(s)] == [s[0]] + s[1..][..LeadingDigits(s[1..])];
    }
  }

  lemma {:induction false} DigitsEndAt(s: string, d: nat)
    requires d < |s| && AllDigits(s[..d]) && s[d] == '.'
    ensures LeadingDigits(s) == d
  {
    if d > 0 {
      assert s[..d][0] == s[0];
      var rest := s[1..][..d - 1];
      forall i | 0 <= i < |rest| ensures '0' <= rest[i] <= '9' {
        assert rest[i] == s[..d][i + 1];
      }
      DigitsEndAt(s[1..], d - 1);
    }
  }

  // ----- lines -----

  function SplitLines(s: string): (lines: seq<string>)
    ensures lines != []
    ensures forall i :: 0 <= i < |lines| ==> '\n' !in lines[i]
  {
    if s == "" then [""]
    else
      var rest := SplitLines(s[1..]);
      if s[0] == '\n' then [""] + rest else [[s[0]] + rest[0]] + rest[1..]
  }

  function JoinLines(lines: seq<string>): string {
    if lines == [] then "" else if |lines| == 1 then lines[0] else lines[0] + "\n" + JoinLines(lines[1..])
  }

  predicate NoNewlines(lines: seq<string>) {
    forall i :: 0 <= i < |lines| ==> '\n' !in lines[i]
  }

  lemma {:induction false} JoinOfSplit(s: string)
    ensures JoinLines(SplitLines(s)) == s
  {
    if s != "" {
      JoinOfSplit(s[1..]);
      var rest := SplitLines(s[1..]);
      if s[0] == '\n' {
        assert ([""] + rest)[1..] == rest;
        assert s == "\n" + s[1..];
      } else {
        assert ([[s[0]] + rest[0]] + rest[1..])[1..] == rest[1..];
        assert s == [s[0]] + s[1..];
      }
    }
  }

  lemma {:induction false} SplitFirstLine(line: string, rest: string)
    requires '\n' !in line
    ensures SplitLines(line + "\n" + rest) == [line] + SplitLines(rest)
  {
    var s := line + "\n" + rest;
    if line == "" {
      assert s[1..] == rest;
    } else {
      assert s[1..] == line[1..] + "\n" + rest;
      SplitFirstLine(line[1..], rest);
      assert [line[0]] + line[1..] == line;
    }
  }

  lemma {:induction false} SplitOneLine(line: string)
    requires '\n' !in line
    ensures SplitLines(line) == [line]
  {
    if line != "" {
      SplitOneLine(line[1..]);
      assert [line[0]] + line[1..] == line;
    }
  }

  lemma {:induction false} SplitOfJoin(lines: seq<string>)
    requires lines != [] && NoNewlines(lines)
    ensures SplitLines(JoinLines(lines)) == lines
  {
    if |lines| == 1 {
      SplitOneLine(lines[0]);
    } else {
      SplitFirstLine(lines[0], JoinLines(lines[1..]));
      SplitOfJoin(lines[1..]);
      assert [lines[0]] + lines[1..] == lines;
    }
  }

  // ----- segments: what each stretch of lines becomes -----

  function CountWhile(lines: seq<string>, p: string -> bool): (n: nat)
    ensures n <= |lines|
    ensures forall i :: 0 <= i < n ==> p(lines[i])
    ensures n < |lines| ==> !p(lines[n])
  {
    if lines == [] || !p(lines[0]) then 0 else 1 + CountWhile(lines[1..], p)
  }

  /** Lines passed over, or lines that became a block. */
  datatype Segment = Skipped(line: string) | Made(block: Block, lines: seq<string>)

  function Source(seg: Segment): seq<string> {
    match seg
    case Skipped(line) => [line]
    case Made(_, lines) => lines
  }

  /** `line.slice(k)`. */
  function Slice(line: string, k: nat): string {
    if k <= |line| then line[k..] else ""
  }

  function Bullets(lines: seq<string>): seq<string> {
    seq(|lines|, i requires 0 <= i < |lines| => Slice(lines[i], 2))
  }

  function Numbers(lines: seq<string>): seq<string> {
    seq(|lines|, i requires 0 <= i < |lines| => lines[i][Marker(lines[i])..])
  }

  function NotFence(line: string): bool { !IsFence(line) }

  function FirstSegment(lines: seq<string>): (seg: Segment)
    requires lines != []
    ensures Source(seg) != [] && Source(seg) <= lines
  {
    var line, rest := lines[0], lines[1..];
    match KindOf(line)
    case Fence =>
      var n := CountWhile(rest, NotFence);
      Made(Code(JoinLines(rest[..n])), if n < |rest| then lines[..n + 2] else lines)
    case Blank => Skipped(line)
    case Rule => Skipped(line)
    case Head1 => Made(H1(line[2..]), [line])
    case Head2 => Made(H2(line[3..]), [line])
    case Head3 => Made(H3(line[4..]), [line])
    case Bullet =>
      var n := CountWhile(lines, IsBullet);
      Made(Ul(Bullets(lines[..n])), lines[..n])
    case Number =>
      var n := CountWhile(lines, IsNumbered);
      Made(Ol(Numbers(lines[..n])), lines[..n])
    case Text =>
      var n := 1 + CountWhile(rest, ContinuesParagraph);
      Made(P(lines[..n]), lines[..n])
  }

  function Segments(lines: seq<string>): seq<Segment>
    decreases |lines|
  {
    if lines == [] then []
    else
      var seg := FirstSegment(lines);
      [seg] + Segments(lines[|Source(seg)|..])
  }

  function BlocksOf(segs: seq<Segment>): seq<Block> {
    if segs == [] then []
    else (match segs[0] case Skipped(_) => [] case Made(b, _) => [b]) + BlocksOf(segs[1..])
  }

  function Parse(lines: seq<string>): seq<Block> {
    BlocksOf(Segments(lines))
  }

  /** Parsing goes segment by segment. */
  lemma ParseStep(lines: seq<string>)
    requires lines != []
    ensures var seg := FirstSegment(lines);
            Parse(lines) == (if seg.Made? then [seg.block] else []) + Parse(lines[|Source(seg)|..])
  {
    hide FirstSegment;
    var seg := FirstSegment(lines);
    assert Segments(lines)[1..] == Segments(lines[|Source(seg)|..]);
  }

  function Sources(segs: seq<Segment>): seq<string> {
    if segs == [] then [] else Source(segs[0]) + Sources(segs[1..])
  }

  lemma SourcesOfMore(seg: Segment, segs: seq<Segment>)
    ensures Sources([seg] + segs) == Source(seg) + Sources(segs)
  {
    hide Source;
    assert ([seg] + segs)[1..] == segs;
  }

  /** Every line is consumed exactly once and in order. */
  lemma {:induction false} EveryLineConsumedOnce(lines: seq<string>)
    ensures Sources(Segments(lines)) == lines
    decreases |lines|
  {
    if lines != [] {
      hide FirstSegment, Source, Sources;
      var seg := FirstSegment(lines);
      var rest := lines[|Source(seg)|..];
      EveryLineConsumedOnce(rest);
      SourcesOfMore(seg, Segments(rest));
      assert lines == Source(seg) + rest;
    }
  }

  /** A segment's lines say exactly what its block says; what is skipped is blank or a rule. */
  ghost predicate Faithful(seg: Segment) {
    match seg
    case Skipped(line) => IsBlank(line) || IsRule(line)
    case Made(H1(t), lines) => lines == ["# " + t]
    case Made(H2(t), lines) => lines == ["## " + t]
    case Made(H3(t), lines) => lines == ["### " + t]
    case Made(P(ls), lines) => lines == ls
    case Made(Ul(items), lines) =>
      items != [] && |lines| == |items| && forall i :: 0 <= i < |lines| ==> lines[i] == "- " + items[i]
    case Made(Ol(items), lines) =>
      items != [] && |lines| == |items| &&
      forall i :: 0 <= i < |lines| ==> IsNumbered(lines[i]) && lines[i] == lines[i][..Marker(lines[i])] + items[i]
    case Made(Code(text), lines) =>
      exists content: seq<string> :: CodeLines(content, text, lines)
  }

  /** An opening fence, the content, and a closing fence unless the document ends first. */
  ghost predicate CodeLines(content: seq<string>, text: string, lines: seq<string>) {
    && text == JoinLines(content) && (forall i :: 0 <= i < |content| ==> !IsFence(content[i]))
    && |content| < |lines| <= |content| + 2 && IsFence(lines[0]) && lines[1..|content| + 1] == content
    && (|lines| == |content| + 2 ==> IsFence(lines[|lines| - 1]))
  }

  lemma FirstSegmentIsFaithful(lines: seq<string>)
    requires lines != []
    ensures Faithful(FirstSegment(lines))
  {
    hide IsSpace, IsBlank, IsRule, Marker;
    match KindOf(lines[0])
    case Fence => CodeIsFaithful(lines);
    case Bullet => BulletsAreFaithful(lines);
    case Number => NumbersAreFaithful(lines);
    case Head1 => assert lines[0] == "# " + lines[0][2..];
    case Head2 => assert lines[0] == "## " + lines[0][3..];
    case Head3 => assert lines[0] == "### " + lines[0][4..];
    case _ =>
  }

  lemma FenceKind(line: string)
    ensures KindOf(line) == Fence <==> IsFence(line)
  {
  }

  lemma CodeIsFaithful(lines: seq<string>)
    requires lines != [] && KindOf(lines[0]) == Fence
    ensures Faithful(FirstSegment(lines))
  {
    hide IsBlank, IsRule, IsNumbered, IsBullet, JoinLines, Marker;
    var rest := lines[1..];
    var n := CountWhile(rest, NotFence);
    var source := if n < |rest| then lines[..n + 2] else lines;
    assert FirstSegment(lines) == Made(Code(JoinLines(rest[..n])), source);
    assert source[1..n + 1] == rest[..n];
    FenceKind(lines[0]);
    assert CodeLines(rest[..n], JoinLines(rest[..n]), source);
  }

  lemma BulletsAreFaithful(lines: seq<string>)
    requires lines != [] && KindOf(lines[0]) == Bullet
    ensures Faithful(FirstSegment(lines))
  {
    hide IsBlank, IsRule, IsFence, IsNumbered;
    var seg := FirstSegment(lines);
    assert seg.lines[0] == lines[0];
    forall i | 0 <= i < |seg.lines| ensures seg.lines[i] == "- " + seg.block.items[i] {
      assert IsBullet(lines[i]);
    }
  }

  lemma NumbersAreFaithful(lines: seq<string>)
    requires lines != [] && KindOf(lines[0]) == Number
    ensures Faithful(FirstSegment(lines))
  {
    hide IsBlank, IsRule, IsFence, IsBullet, Marker;
    var seg := FirstSegment(lines);
    assert seg.lines[0] == lines[0];
    forall i | 0 <= i < |seg.lines|
      ensures IsNumbered(seg.lines[i]) && seg.lines[i] == seg.lines[i][..Marker(seg.lines[i])] + seg.block.items[i]
    {
      assert IsNumbered(lines[i]);
    }
  }

  lemma {:induction false} SegmentsAreFaithful(lines: seq<string>)
    ensures forall i :: 0 <= i < |Segments(lines)| ==> Faithful(Segments(lines)[i])
    decreases |lines|
  {
    if lines != [] {
      FirstSegmentIsFaithful(lines);
      SegmentsAreFaithful(lines[|Source(FirstSegment(lines))|..]);
    }
  }

  /** A list takes in every line of its kind that follows, a paragraph every line that continues it. */
  lemma FirstSegmentStops(lines: seq<string>)
    requires lines != [] && FirstSegment(lines).Made? && |Source(FirstSegment(lines))| < |lines|
    ensures var b, next := FirstSegment(lines).block, lines[|Source(FirstSegment(lines))|];
            && (b.Ul? ==> !IsBullet(next))
            && (b.Ol? ==> !IsNumbered(next))
            && (b.P? ==> !ContinuesParagraph(next))
  {
    hide IsBlank, IsRule, IsFence, IsBullet, IsNumbered, ContinuesParagraph;
  }

  lemma FirstSegmentKind(lines: seq<string>)
    requires lines != [] && FirstSegment(lines).Made?
    ensures var b := FirstSegment(lines).block;
            && (b.Ul? ==> IsBullet(lines[0]))
            && (b.Ol? ==> IsNumbered(lines[0]))
            && (b.P? ==> ContinuesParagraph(lines[0]))
  {
    hide IsBlank, IsRule, IsFence, IsBullet, IsNumbered;
  }

  /** Neighbouring lines of one kind are one block: no list follows a list of its kind, no paragraph a paragraph. */
  lemma {:induction false} BlocksAreMaximal(lines: seq<string>, i: nat)
    requires i + 1 < |Segments(lines)| && Segments(lines)[i].Made? && Segments(lines)[i + 1].Made?
    ensures var a, b := Segments(lines)[i].block, Segments(lines)[i + 1].block;
            !(a.Ul? && b.Ul?) && !(a.Ol? && b.Ol?) && !(a.P? && b.P?)
    decreases |lines|
  {
    hide FirstSegment, IsBullet, IsNumbered, ContinuesParagraph;
    var rest := lines[|Source(FirstSegment(lines))|..];
    if i > 0 {
      BlocksAreMaximal(rest, i - 1);
    } else {
      FirstSegmentStops(lines);
      FirstSegmentKind(rest);
    }
  }

  // ----- printing and parsing again -----

  function Bulleted(items: seq<string>): seq<string> {
    seq(|items|, i requires 0 <= i < |items| => "- " + items[i])
  }

  function Numbered(items: seq<string>): seq<string> {
    seq(|items|, i requires 0 <= i < |items| => "1. " + items[i])
  }

  /** A block's lines, each with its marker. */
  function Print(b: Block): (lines: seq<string>)
  {
    match b
    case H1(t) => ["# " + t]
    case H2(t) => ["## " + t]
    case H3(t) => ["### " + t]
    case P(ls) => ls
    case Ul(items) => Bulleted(items)
    case Ol(items) => Numbered(items)
    case Code(text) => ["```"] + SplitLines(text) + ["```"]
  }

  /** The blocks with a blank line after each. */
  function PrintAll(blocks: seq<Block>): seq<string> {
    if blocks == [] then [] else Print(blocks[0]) + [""] + PrintAll(blocks[1..])
  }

  /** A block that parsing lines without newlines can give. */
  ghost predicate Parsed(b: Block) {
    match b
    case H1(t) => '\n' !in t
    case H2(t) => '\n' !in t
    case H3(t) => '\n' !in t
    case P(ls) =>
      ls != [] && NoNewlines(ls) && KindOf(ls[0]) == Text && forall i :: 1 <= i < |ls| ==> ContinuesParagraph(ls[i])
    case Ul(items) => items != [] && NoNewlines(items)
    case Ol(items) => items != [] && NoNewlines(items)
    case Code(text) => forall i :: 0 <= i < |SplitLines(text)| ==> !IsFence(SplitLines(text)[i])
  }

  lemma FirstBlockIsParsed(lines: seq<string>)
    requires lines != [] && NoNewlines(lines) && FirstSegment(lines).Made?
    ensures Parsed(FirstSegment(lines).block)
  {
    hide IsBlank, IsRule, IsFence, IsBullet, Marker, ContinuesParagraph;
    var rest := lines[1..];
    match KindOf(lines[0])
    case Fence =>
      var content := rest[..CountWhile(rest, NotFence)];
      ContentIsParsed(content);
    case _ =>
  }

  lemma ContentIsParsed(content: seq<string>)
    requires NoNewlines(content) && forall i :: 0 <= i < |content| ==> NotFence(content[i])
    ensures Parsed(Code(JoinLines(content)))
  {
    if content != [] {
      SplitOfJoin(content);
    }
  }

  lemma {:induction false} BlocksAreParsed(lines: seq<string>)
    requires NoNewlines(lines)
    ensures forall i :: 0 <= i < |Parse(lines)| ==> Parsed(Parse(lines)[i])
    decreases |lines|
  {
    if lines != [] {
      hide FirstSegment, Parsed, Parse;
      var seg := FirstSegment(lines);
      var rest := lines[|Source(seg)|..];
      BlocksAreParsed(rest);
      ParseStep(lines);
      if seg.Made? {
        FirstBlockIsParsed(lines);
      }
    }
  }

  lemma {:induction false} CountWhileStops(lines: seq<string>, p: string -> bool, n: nat)
    requires n < |lines| && !p(lines[n]) && forall i :: 0 <= i < n ==> p(lines[i])
    ensures CountWhile(lines, p) == n
  {
    if n > 0 {
      CountWhileStops(lines[1..], p, n - 1);
    }
  }

  lemma PrintedHeadingKinds(t: string)
    ensures KindOf("# " + t) == Head1 && KindOf("## " + t) == Head2 && KindOf("### " + t) == Head3
  {
    hide IsNumbered;
    var a, b, c := "# " + t, "## " + t, "### " + t;
    assert a[0] == '#' && a[1] == ' ' && b[0] == '#' && b[1] == '#' && b[2] == ' ';
    assert c[0] == '#' && c[1] == '#' && c[2] == '#' && c[3] == ' ';
    assert a[..2] == "# " && b[..3] == "## " && c[..4] == "### ";
  }

  lemma PrintedBulletKind(t: string)
    ensures KindOf("- " + t) == Bullet && Slice("- " + t, 2) == t
  {
    hide IsNumbered;
    var a := "- " + t;
    assert a[0] == '-' && a[1] == ' ' && a[..2] == "- ";
  }

  lemma PrintedNumberKind(t: string)
    ensures KindOf("1. " + t) == Number && Marker("1. " + t) == 3 && ("1. " + t)[3..] == t
  {
    var a := "1. " + t;
    assert a[0] == '1' && a[1] == '.' && a[2] == ' ';
    assert LeadingDigits(a[1..]) == 0;
  }

  lemma BlankStops(line: string)
    requires line == ""
    ensures KindOf(line) == Blank && !IsBullet(line) && !IsNumbered(line) && !ContinuesParagraph(line) && !IsFence(line)
  {
  }

  /** A printed block followed by a blank line is read back as that block. */
  lemma PrintedBlockParses(b: Block, rest: seq<string>)
    requires Parsed(b)
    ensures FirstSegment(Print(b) + [""] + rest) == Made(b, Print(b))
  {
    var lines := Print(b) + [""] + rest;
    BlankStops("");
    match b
    case H1(t) => PrintedHeadingParses(b, t, rest);
    case H2(t) => PrintedHeadingParses(b, t, rest);
    case H3(t) => PrintedHeadingParses(b, t, rest);
    case P(ls) => PrintedParagraphParses(ls, rest);
    case Ul(items) => PrintedBulletsParse(items, rest);
    case Ol(items) => PrintedNumbersParse(items, rest);
    case Code(text) => PrintedCodeParses(text, rest);
  }

  lemma PrintedHeadingParses(b: Block, t: string, rest: seq<string>)
    requires b == H1(t) || b == H2(t) || b == H3(t)
    ensures FirstSegment(Print(b) + [""] + rest) == Made(b, Print(b))
  {
    hide KindOf;
    PrintedHeadingKinds(t);
    assert ("# " + t)[2..] == t && ("## " + t)[3..] == t && ("### " + t)[4..] == t;
  }

  lemma PrintedParagraphParses(ls: seq<string>, rest: seq<string>)
    requires Parsed(P(ls))
    ensures FirstSegment(ls + [""] + rest) == Made(P(ls), ls)
  {
    hide KindOf, ContinuesParagraph;
    BlankStops("");
    var lines := ls + [""] + rest;
    assert lines[0] == ls[0];
    forall i | 0 <= i < |ls| - 1 ensures ContinuesParagraph(lines[1..][i]) {
      assert lines[1..][i] == ls[i + 1];
    }
    CountWhileStops(lines[1..], ContinuesParagraph, |ls| - 1);
    assert lines[..|ls|] == ls;
  }

  lemma PrintedBulletsParse(items: seq<string>, rest: seq<string>)
    requires items != []
    ensures FirstSegment(Bulleted(items) + [""] + rest) == Made(Ul(items), Bulleted(items))
  {
    hide KindOf, Slice;
    BlankStops("");
    var lines, n := Bulleted(items) + [""] + rest, |items|;
    forall i | 0 <= i < n ensures IsBullet(lines[i]) && Slice(lines[i], 2) == items[i] {
      PrintedBulletKind(items[i]);
      assert lines[i] == "- " + items[i];
    }
    PrintedBulletKind(items[0]);
    CountWhileStops(lines, IsBullet, n);
    assert lines[..n] == Bulleted(items);
    assert Bullets(lines[..n]) == items;
  }

  lemma PrintedNumbersParse(items: seq<string>, rest: seq<string>)
    requires items != []
    ensures FirstSegment(Numbered(items) + [""] + rest) == Made(Ol(items), Numbered(items))
  {
    hide KindOf, Marker;
    BlankStops("");
    var lines, n := Numbered(items) + [""] + rest, |items|;
    forall i | 0 <= i < n ensures IsNumbered(lines[i]) && lines[i][Marker(lines[i])..] == items[i] {
      PrintedNumberKind(items[i]);
      assert lines[i] == "1. " + items[i];
    }
    PrintedNumberKind(items[0]);
    CountWhileStops(lines, IsNumbered, n);
    assert lines[..n] == Numbered(items);
    assert Numbers(lines[..n]) == items;
  }

  /** A fence, content without fences, and a fence make one code block. */
  lemma FencedLines(lines: seq<string>, n: nat)
    requires n + 1 < |lines| && IsFence(lines[0]) && IsFence(lines[n + 1])
    requires forall i :: 1 <= i <= n ==> !IsFence(lines[i])
    ensures FirstSegment(lines) == Made(Code(JoinLines(lines[1..n + 1])), lines[..n + 2])
  {
    hide IsFence, JoinLines, IsBlank, IsRule, IsNumbered, IsBullet;
    CountWhileStops(lines[1..], NotFence, n);
    assert lines[1..][..n] == lines[1..n + 1];
  }

  lemma PrintedCodeParses(text: string, rest: seq<string>)
    requires Parsed(Code(text))
    ensures FirstSegment(Print(Code(text)) + [""] + rest) == Made(Code(text), Print(Code(text)))
  {
    hide FirstSegment, KindOf, SplitLines, JoinLines;
    var content := SplitLines(text);
    var lines, n := Print(Code(text)) + [""] + rest, |content|;
    assert lines[1..n + 1] == content && lines[..n + 2] == Print(Code(text));
    forall i | 1 <= i <= n ensures !IsFence(lines[i]) {
      assert lines[i] == content[i - 1];
    }
    FencedLines(lines, n);
    JoinOfSplit(text);
  }

  lemma PrintedBlockStep(b: Block, more: seq<string>)
    requires Parsed(b)
    ensures Parse(Print(b) + [""] + more) == [b] + Parse(more)
  {
    hide FirstSegment, Parsed, Print, Parse;
    var lines := Print(b) + [""] + more;
    PrintedBlockParses(b, more);
    ParseStep(lines);
    assert lines[|Print(b)|..] == [""] + more;
    BlankLineIsSkipped(more);
  }

  lemma {:induction false} PrintedBlocksParse(blocks: seq<Block>)
    requires forall i :: 0 <= i < |blocks| ==> Parsed(blocks[i])
    ensures Parse(PrintAll(blocks)) == blocks
  {
    if blocks == [] {
    } else {
      hide Parsed, Print, Parse;
      PrintedBlockStep(blocks[0], PrintAll(blocks[1..]));
      PrintedBlocksParse(blocks[1..]);
    }
  }

  lemma BlankLineIsSkipped(rest: seq<string>)
    ensures Parse([""] + rest) == Parse(rest)
  {
    BlankStops("");
    var lines := [""] + rest;
    assert FirstSegment(lines) == Skipped("");
    assert lines[1..] == rest;
    hide FirstSegment, Parse;
    ParseStep(lines);
  }

  /** Printing what was parsed, with blank lines between, and parsing again gives the same blocks. */
  lemma RoundTrip(lines: seq<string>)
    requires NoNewlines(lines)
    ensures Parse(PrintAll(Parse(lines))) == Parse(lines)
  {
    BlocksAreParsed(lines);
    PrintedBlocksParse(Parse(lines));
  }

  // ----- the whole text -----

  /** The rest of the text after the first closing line of the front matter, if there is one. */
  function AfterClosing(body: string): (r: string)
    ensures |r| <= |body|
  {
    if "\n---" <= body then
      var rest := body[4..];
      var rest1 := if "\r" <= rest then rest[1..] else rest;
      if "\n" <= rest1 then rest1[1..] else rest1
    else if body == "" then ""
    else AfterClosing(body[1..])
  }

  predicate HasClosing(body: string) {
    "\n---" <= body || (body != "" && HasClosing(body[1..]))
  }

  /** Drop front matter: a first line `---`, anything, and the first later line that starts with `---`. */
  function StripFrontMatter(md: string): string {
    var body := if "---\n" <= md then md[4..] else if "---\r\n" <= md then md[5..] else "";
    if HasClosing(body) then AfterClosing(body) else md
  }

  /** The text after a closing line: what follows its line end, if it has one there. */
  ghost predicate Follows(rest: string, tail: string) {
    || tail == "\r\n" + rest
    || (tail == "\n" + rest)
    || (tail == "\r" + rest && !("\n" <= rest))
    || (tail == rest && !("\n" <= tail) && !("\r" <= tail))
  }

  /** The text holds a newline followed by three dashes at position i. */
  predicate ClosesAt(text: string, i: nat) {
    i <= |text| && "\n---" <= text[i..]
  }

  /** Front matter up to the first closing line is dropped. */
  lemma FrontMatterIsDropped(opener: string, head: string, tail: string, rest: string)
    requires opener in {"---\n", "---\r\n"} && Follows(rest, tail)
    requires forall i :: 0 <= i < |head| ==> !ClosesAt(head + "\n---" + tail, i)
    ensures StripFrontMatter(opener + head + "\n---" + tail) == rest
  {
    hide AfterClosing, HasClosing;
    var body := head + "\n---" + tail;
    ClosingFound(head, tail, rest);
    var md := opener + head + "\n---" + tail;
    assert md[..|opener|] == opener && md[|opener|..] == body;
    if opener == "---\r\n" {
      assert md[3] == '\r';
    }
  }

  lemma LineEndIsDropped(tail: string, rest: string)
    requires Follows(rest, tail)
    ensures var tail1 := if "\r" <= tail then tail[1..] else tail;
            rest == if "\n" <= tail1 then tail1[1..] else tail1
  {
    if tail == "\r\n" + rest {
      assert tail[0] == '\r' && tail[1..] == "\n" + rest;
      assert ("\n" + rest)[1..] == rest;
    } else if tail == "\n" + rest {
      assert tail[0] == '\n' && tail[1..] == rest;
    } else if tail == "\r" + rest {
      assert tail[0] == '\r' && tail[1..] == rest;
    }
  }

  lemma {:induction false} ClosingFound(head: string, tail: string, rest: string)
    requires Follows(rest, tail)
    requires forall i :: 0 <= i < |head| ==> !ClosesAt(head + "\n---" + tail, i)
    ensures HasClosing(head + "\n---" + tail) && AfterClosing(head + "\n---" + tail) == rest
  {
    var body := head + "\n---" + tail;
    if head == "" {
      assert body == "\n---" + tail && body[4..] == tail;
      LineEndIsDropped(tail, rest);
    } else {
      var less := head[1..] + "\n---" + tail;
      assert body[1..] == less;
      assert !ClosesAt(body, 0) && body[0..] == body;
      forall i | 0 <= i < |head[1..]| ensures !ClosesAt(less, i) {
        assert !ClosesAt(body, i + 1) && body[i + 1..] == less[i..];
      }
      ClosingFound(head[1..], tail, rest);
    }
  }

  /** Without an opening or without a closing line the text stays as it is. */
  lemma NothingIsDropped(md: string)
    requires forall opener :: opener in {"---\n", "---\r\n"} && opener <= md ==>
               forall i :: 0 <= i <= |md| - |opener| ==> !ClosesAt(md[|opener|..], i)
    ensures StripFrontMatter(md) == md
  {
    hide AfterClosing, HasClosing;
    NeverCloses("");
    if "---\n" <= md {
      NeverCloses(md[4..]);
    } else if "---\r\n" <= md {
      NeverCloses(md[5..]);
    }
  }

  lemma {:induction false} NeverCloses(body: string)
    requires forall i :: 0 <= i <= |body| ==> !ClosesAt(body, i)
    ensures !HasClosing(body)
  {
    assert !ClosesAt(body, 0) && body[0..] == body;
    if body != "" {
      forall i | 0 <= i <= |body[1..]| ensures !ClosesAt(body[1..], i) {
        assert !ClosesAt(body, i + 1) && body[i + 1..] == body[1..][i..];
      }
      NeverCloses(body[1..]);
    }
  }

  function ParsedText(md: string): seq<Block> {
    Parse(SplitLines(StripFrontMatter(md)))
  }

  function PrintedText(blocks: seq<Block>): string {
    JoinLines(PrintAll(blocks))
  }

  /** The printed lines have no newline in them, and a printed text never begins with a rule. */
  lemma {:induction false} PrintedLines(blocks: seq<Block>)
    requires forall i :: 0 <= i < |blocks| ==> Parsed(blocks[i])
    ensures NoNewlines(PrintAll(blocks))
    ensures blocks != [] ==> PrintAll(blocks) != [] && !IsRule(PrintAll(blocks)[0])
  {
    if blocks == [] {
    } else {
      hide Parsed, Print, IsRule;
      PrintedLines(blocks[1..]);
      PrintedBlockLines(blocks[0]);
    }
  }

  lemma PrintedBlockLines(b: Block)
    requires Parsed(b)
    ensures Print(b) != [] && NoNewlines(Print(b)) && !IsRule(Print(b)[0])
  {
    hide IsBlank, IsNumbered, Marker;
    match b
    case H1(t) => PrintedHeadingKinds(t);
    case H2(t) => PrintedHeadingKinds(t);
    case H3(t) => PrintedHeadingKinds(t);
    case Ul(items) => assert Print(b)[0] == "- " + items[0] && Print(b)[0][1] == ' ';
    case Ol(items) => assert Print(b)[0] == "1. " + items[0] && Print(b)[0][0] == '1';
    case Code(_) => assert "```"[0] == '`';
    case P(_) =>
  }

  /** Only a rule as first line opens front matter. */
  lemma OpenerIsRule(line: string, md: string)
    requires "---\n" <= md || "---\r\n" <= md
    requires '\n' !in line && line <= md && (|line| < |md| ==> md[|line|] == '\n')
    ensures IsRule(line)
  {
    var n := if "---\n" <= md then 3 else 4;
    assert md[..3] == "---" && md[n] == '\n' && (n == 4 ==> md[3] == '\r');
    assert |line| == n;
    assert line == md[..n];
    assert line[..3] == "---";
  }

  /** A text whose first line is not a rule has no front matter. */
  lemma NoFrontMatter(line: string, lines: seq<string>)
    requires '\n' !in line && !IsRule(line)
    ensures StripFrontMatter(JoinLines([line] + lines)) == JoinLines([line] + lines)
  {
    hide IsRule;
    var md := JoinLines([line] + lines);
    assert ([line] + lines)[1..] == lines;
    if "---\n" <= md || "---\r\n" <= md {
      OpenerIsRule(line, md);
    }
  }

  /** The round trip of a whole text, front matter included. */
  lemma TextRoundTrip(md: string)
    ensures ParsedText(PrintedText(ParsedText(md))) == ParsedText(md)
  {
    hide Parse, PrintAll, StripFrontMatter, SplitLines, JoinLines;
    var lines := SplitLines(StripFrontMatter(md));
    var blocks := Parse(lines);
    BlocksAreParsed(lines);
    PrintedLines(blocks);
    RoundTrip(lines);
    var printed := PrintAll(blocks);
    if blocks == [] {
      NothingPrinted();
    } else {
      SplitOfJoin(printed);
      NoFrontMatter(printed[0], printed[1..]);
      assert [printed[0]] + printed[1..] == printed;
    }
  }

  lemma NothingPrinted()
    ensures ParsedText(PrintedText([])) == []
  {
    BlankLineIsSkipped([]);
    assert [""] + [] == [""];
  }

  // ----- parseBlocks -----

  /** One pass over the lines with an index, as the parser runs. */
  method ParseBlocks(md: string) returns (blocks: seq<Block>)
    ensures blocks == ParsedText(md)
  {
    hide FirstSegment, Parse, KindOf;
    var lines := SplitLines(StripFrontMatter(md));
    blocks := [];
    var i := 0;
    assert lines[0..] == lines;
    while i < |lines|
      invariant 0 <= i <= |lines|
      invariant blocks + Parse(lines[i..]) == Parse(lines)
    {
      ParseStep(lines[i..]);
      ghost var seg := FirstSegment(lines[i..]);
      assert lines[i..][|Source(seg)|..] == lines[i + |Source(seg)|..];
      var made, next := BlockAt(lines, i);
      blocks := blocks + made;
      i := next;
    }
    ParseNothing(lines);
  }

  lemma ParseNothing(lines: seq<string>)
    ensures Parse(lines[|lines|..]) == []
  {
  }

  /** One turn of the main loop: the block that begins at line i, if any, and where the next turn begins. */
  method BlockAt(lines: seq<string>, i: nat) returns (made: seq<Block>, next: nat)
    requires i < |lines|
    ensures var seg := FirstSegment(lines[i..]);
            next == i + |Source(seg)| && made == if seg.Made? then [seg.block] else []
  {
    hide IsFence, IsBlank, IsRule, IsBullet, IsNumbered, ContinuesParagraph, JoinLines;
    var line := lines[i];
    ghost var rest := lines[i..];
    assert rest[0] == line;
    match KindOf(line)
    case Fence => made, next := CodeAt(lines, i);
    case Blank => made, next := [], i + 1;
    case Rule => made, next := [], i + 1;
    case Head1 => made, next := [H1(line[2..])], i + 1;
    case Head2 => made, next := [H2(line[3..])], i + 1;
    case Head3 => made, next := [H3(line[4..])], i + 1;
    case _ => made, next := RunAt(lines, i);
  }

  /** The first segment of a run of items or of a paragraph. */
  lemma RunSegment(lines: seq<string>)
    requires lines != []
    ensures KindOf(lines[0]) == Bullet ==>
              var n := CountWhile(lines, IsBullet);
              FirstSegment(lines) == Made(Ul(Bullets(lines[..n])), lines[..n])
    ensures KindOf(lines[0]) == Number ==>
              var n := CountWhile(lines, IsNumbered);
              FirstSegment(lines) == Made(Ol(Numbers(lines[..n])), lines[..n])
    ensures KindOf(lines[0]) == Text ==>
              var n := 1 + CountWhile(lines[1..], ContinuesParagraph);
              FirstSegment(lines) == Made(P(lines[..n]), lines[..n])
  {
    hide KindOf, IsBullet, IsNumbered, ContinuesParagraph, Bullets, Numbers;
  }

  /** A run of list items, or a paragraph. */
  method RunAt(lines: seq<string>, i: nat) returns (made: seq<Block>, next: nat)
    requires i < |lines| && KindOf(lines[i]) in {Bullet, Number, Text}
    ensures var seg := FirstSegment(lines[i..]);
            next == i + |Source(seg)| && made == if seg.Made? then [seg.block] else []
  {
    hide FirstSegment, KindOf, IsBullet, IsNumbered, ContinuesParagraph, Bullets, Numbers, CountWhile;
    RunSegment(lines[i..]);
    if KindOf(lines[i]) == Bullet {
      next := ScanWhile(lines, i, IsBullet);
      made := [Ul(Bullets(lines[i..next]))];
    } else if KindOf(lines[i]) == Number {
      next := ScanWhile(lines, i, IsNumbered);
      made := [Ol(Numbers(lines[i..next]))];
    } else {
      next := ScanWhile(lines, i + 1, ContinuesParagraph);
      made := [P(lines[i..next])];
    }
    PartOfRest(lines, i, next);
  }

  lemma PartOfRest(lines: seq<string>, i: nat, next: nat)
    requires i < next <= |lines|
    ensures lines[i..][0] == lines[i] && lines[i..][1..] == lines[i + 1..] && lines[i..][..next - i] == lines[i..next]
  {
  }

  method CodeAt(lines: seq<string>, i: nat) returns (made: seq<Block>, next: nat)
    requires i < |lines| && KindOf(lines[i]) == Fence
    ensures var seg := FirstSegment(lines[i..]);
            next == i + |Source(seg)| && made == if seg.Made? then [seg.block] else []
  {
    hide KindOf, IsFence, IsBlank, IsRule, IsBullet, IsNumbered, ContinuesParagraph, JoinLines;
    ghost var rest := lines[i..];
    assert rest[0] == lines[i];
    var end := ScanWhile(lines, i + 1, NotFence);
    assert rest[1..] == lines[i + 1..] && rest[1..][..end - (i + 1)] == lines[i + 1..end];
    made := [Code(JoinLines(lines[i + 1..end]))];
    next := if end < |lines| then end + 1 else end;
  }

  /** The inner loops: on from `start` while the lines satisfy p. */
  method ScanWhile(lines: seq<string>, start: nat, p: string -> bool) returns (end: nat)
    requires start <= |lines|
    ensures start <= end <= |lines|
    ensures end == start + CountWhile(lines[start..], p)
  {
    end := start;
    while end < |lines| && p(lines[end])
      invariant start <= end <= |lines|
      invariant CountWhile(lines[start..], p) == end - start + CountWhile(lines[end..], p)
    {
      assert lines[end..][0] == lines[end] && lines[end..][1..] == lines[end + 1..];
      end := end + 1;
    }
    if end < |lines| {
      assert lines[end..][0] == lines[end];
    }
  }
}
