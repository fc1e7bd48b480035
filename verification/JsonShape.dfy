/** The streaming JSON shape scanner: one pass over the bytes, no parse. */
module JsonShape {
  import opened Records

  datatype Limits = Limits(markers: int, depth: int, stringBytes: int, literalBytes: int)

  datatype Scan = Scan(markers: nat, depth: int, stringBytes: nat, literalBytes: nat, inString: bool, escaped: bool)

  const START := Scan(0, 0, 0, 0, false, false)

  /** The structural characters and how they change the depth. */
  function StructureMarker(c: char): Option<int> {
    if c == '{' || c == '[' then Some(1)
    else if c == '}' || c == ']' then Some(-1)
    else if c == ',' || c == ':' then Some(0)
    else None
  }

  predicate Whitespace(c: char) {
    c == ' ' || c == '\t' || c == '\n' || c == '\r'
  }

  function InString(s: Scan, c: char): Scan {
    if s.escaped then s.(escaped := false, stringBytes := s.stringBytes + 1)
    else if c == '\\' then s.(escaped := true, stringBytes := s.stringBytes + 1)
    else if c == '"' then s.(inString := false)
    else s.(stringBytes := s.stringBytes + 1)
  }

  function Next(s: Scan, c: char): Scan {
    if s.inString then InString(s, c)
    else if c == '"' then s.(inString := true, literalBytes := 0)
    else if StructureMarker(c).Some? then
      s.(markers := s.markers + 1, depth := s.depth + StructureMarker(c).value, literalBytes := 0)
    else if Whitespace(c) then s.(literalBytes := 0)
    else s.(literalBytes := s.literalBytes + 1)
  }

  // ---------------------------------------------------------------------------
  // The scanner

  /** Which counter a byte moves, and whether it stays within its limit. */
  predicate Allowed(limits: Limits, s: Scan, c: char) {
    var t := Next(s, c);
    if s.inString then t.stringBytes <= limits.stringBytes
    else if c == '"' then true
    else if StructureMarker(c).Some? then t.markers <= limits.markers && t.depth <= limits.depth
    else if Whitespace(c) then true
    else t.literalBytes <= limits.literalBytes
  }

  class ShapeScanner {
    const limits: Limits
    var markers: nat
    var depth: int
    var stringBytes: nat
    var literalBytes: nat
    var inString: bool
    var escaped: bool

    function State(): Scan
      reads this
    {
      Scan(markers, depth, stringBytes, literalBytes, inString, escaped)
    }

    constructor (bounds: Limits)
      ensures limits == bounds && State() == START
    {
      limits := bounds;
      markers, depth, stringBytes, literalBytes, inString, escaped := 0, 0, 0, 0, false, false;
    }

    method Advance(c: char) returns (ok: bool)
      modifies this
      ensures State() == Next(old(State()), c) && ok == Allowed(limits, old(State()), c)
    {
      if inString {
        ok := ConsumeString(c);
        return;
      }
      if c == '"' {
        inString, literalBytes := true, 0;
        return true;
      }
      var change := StructureMarker(c);
      if change.Some? {
        ok := ConsumeMarker(change.value);
        return;
      }
      if Whitespace(c) {
        literalBytes := 0;
        return true;
      }
      literalBytes := literalBytes + 1;
      return literalBytes <= limits.literalBytes;
    }

    method ConsumeString(c: char) returns (ok: bool)
      requires inString
      modifies this
      ensures State() == InString(old(State()), c) && ok == (stringBytes <= limits.stringBytes)
    {
      var counted := CountStringByte(c);
      stringBytes := stringBytes + counted;
      return stringBytes <= limits.stringBytes;
    }

    method CountStringByte(c: char) returns (counted: nat)
      requires inString
      modifies `inString, `escaped
      ensures State().(stringBytes := old(stringBytes) + counted) == InString(old(State()), c)
    {
      if escaped {
        escaped := false;
        return 1;
      }
      match c
      case '\\' =>
        escaped := true;
        return 1;
      case '"' =>
        inString := false;
        return 0;
      case _ =>
        return 1;
    }

    method ConsumeMarker(change: int) returns (ok: bool)
      modifies this
      ensures State() == old(State()).(markers := old(markers) + 1, depth := old(depth) + change, literalBytes := 0)
      ensures ok == (markers <= limits.markers && depth <= limits.depth)
    {
      markers, depth, literalBytes := markers + 1, depth + change, 0;
      return markers <= limits.markers && depth <= limits.depth;
    }
  }

  // ---------------------------------------------------------------------------
  // What a text measures

  /** `deepest` is the greatest depth after a structural character, `quoted`
      whether a byte was read inside a string, `longest` the longest token that
      is no string. */
  datatype Shape = Shape(markers: nat, deepest: Option<int>, stringBytes: nat, quoted: bool, longest: nat)

  const NO_SHAPE := Shape(0, None, 0, false, 0)

  function Max(a: int, b: int): int { if a < b then b else a }

  function Raise(deepest: Option<int>, depth: int): Option<int> {
    Some(if deepest.None? then depth else Max(deepest.value, depth))
  }

  function Observe(shape: Shape, s: Scan, c: char): Shape {
    var t := Next(s, c);
    Shape(t.markers,
          if !s.inString && StructureMarker(c).Some? then Raise(shape.deepest, t.depth) else shape.deepest,
          t.stringBytes, shape.quoted || s.inString,
          if t.literalBytes > shape.longest then t.literalBytes else shape.longest)
  }

  datatype Reading = Reading(scan: Scan, shape: Shape)

  const NOTHING_READ := Reading(START, NO_SHAPE)

  function Read(r: Reading, text: string): Reading
    decreases |text|
  {
    if text == "" then r
    else Read(Reading(Next(r.scan, text[0]), Observe(r.shape, r.scan, text[0])), text[1..])
  }

  predicate Within(limits: Limits, shape: Shape) {
    && (shape.markers > 0 ==> shape.markers <= limits.markers)
    && (shape.deepest.Some? ==> shape.deepest.value <= limits.depth)
    && (shape.quoted ==> shape.stringBytes <= limits.stringBytes)
    && (shape.longest > 0 ==> shape.longest <= limits.literalBytes)
  }

  /** A reading's counters agree with its scanner. */
  predicate Consistent(r: Reading) {
    && r.shape.markers == r.scan.markers && r.shape.stringBytes == r.scan.stringBytes
    && r.scan.literalBytes <= r.shape.longest && (r.shape.markers > 0 <==> r.shape.deepest.Some?)
    && (r.shape.stringBytes > 0 ==> r.shape.quoted)
  }

  lemma ObserveAllowed(limits: Limits, r: Reading, c: char)
    requires Consistent(r)
    ensures var next := Reading(Next(r.scan, c), Observe(r.shape, r.scan, c));
      Consistent(next) && (Within(limits, next.shape) <==> Within(limits, r.shape) && Allowed(limits, r.scan, c))
  {
  }

  lemma {:induction false} ReadMore(r: Reading, a: string, b: string)
    ensures Read(r, a + b) == Read(Read(r, a), b)
    decreases |a|
  {
    if a == "" {
      assert a + b == b;
    } else {
      assert (a + b)[1..] == a[1..] + b;
      ReadMore(Reading(Next(r.scan, a[0]), Observe(r.shape, r.scan, a[0])), a[1..], b);
    }
  }

  lemma {:induction false} WithinShrinks(limits: Limits, r: Reading, text: string)
    requires Consistent(r) && Within(limits, Read(r, text).shape)
    ensures Within(limits, r.shape)
    decreases |text|
  {
    if text != "" {
      ObserveAllowed(limits, r, text[0]);
      WithinShrinks(limits, Reading(Next(r.scan, text[0]), Observe(r.shape, r.scan, text[0])), text[1..]);
    }
  }

  /** `checkShape`: it stops at the first byte over a limit, and accepts exactly the
      texts whose whole shape is within the limits, whatever bytes they hold. */
  method CheckShape(text: string, limits: Limits) returns (ok: bool)
    ensures ok <==> Within(limits, Read(NOTHING_READ, text).shape)
  {
    var scanner := new ShapeScanner(limits);
    for i := 0 to |text|
      invariant scanner.limits == limits && scanner.State() == Read(NOTHING_READ, text[..i]).scan
      invariant Consistent(Read(NOTHING_READ, text[..i])) && Within(limits, Read(NOTHING_READ, text[..i]).shape)
    {
      ghost var r := Read(NOTHING_READ, text[..i]);
      assert text[..i + 1] == text[..i] + [text[i]];
      ReadMore(NOTHING_READ, text[..i], [text[i]]);
      ObserveAllowed(limits, r, text[i]);
      var allowed := scanner.Advance(text[i]);
      if !allowed {
        assert text == text[..i + 1] + text[i + 1..];
        ReadMore(NOTHING_READ, text[..i + 1], text[i + 1..]);
        if Within(limits, Read(NOTHING_READ, text).shape) {
          WithinShrinks(limits, Read(NOTHING_READ, text[..i + 1]), text[i + 1..]);
        }
        return false;
      }
    }
    assert text[..|text|] == text;
    return true;
  }

  // ---------------------------------------------------------------------------
  // JSON texts (sections 2 and 7 of RFC 8259), with every byte of their layout

  /** One byte of a string's content, or a backslash and the byte after it. */
  datatype Piece = Plain(c: char) | Escape(c: char)

  /** An atom is a number or one of the three literal names. `blank` is the layout
      between the brackets of an empty array or object. */
  datatype Value =
    | Atom(text: string)
    | Text(content: seq<Piece>)
    | Array(elements: seq<Element>, blank: string)
    | Object(members: seq<Member>, blank: string)

  datatype Element = Element(before: string, value: Value, after: string)

  datatype Member = Member(before: string, name: seq<Piece>, between: string, element: Element)

  function RenderPieces(ps: seq<Piece>): string {
    if ps == [] then ""
    else (if ps[0].Plain? then [ps[0].c] else ['\\', ps[0].c]) + RenderPieces(ps[1..])
  }

  function RenderString(ps: seq<Piece>): string { "\"" + RenderPieces(ps) + "\"" }

  function RenderValue(v: Value): string
    decreases v
  {
    match v
    case Atom(text) => text
    case Text(content) => RenderString(content)
    case Array(elements, blank) => "[" + (if elements == [] then blank else RenderElements(elements)) + "]"
    case Object(members, blank) => "{" + (if members == [] then blank else RenderMembers(members)) + "}"
  }

  function RenderElement(e: Element): string
    decreases e
  {
    e.before + (RenderValue(e.value) + e.after)
  }

  function RenderElements(es: seq<Element>): string
    requires es != []
    decreases es
  {
    if |es| == 1 then RenderElement(es[0]) else RenderElement(es[0]) + ("," + RenderElements(es[1..]))
  }

  function RenderMember(m: Member): string
    decreases m
  {
    m.before + (RenderString(m.name) + (m.between + (":" + RenderElement(m.element))))
  }

  function RenderMembers(ms: seq<Member>): string
    requires ms != []
    decreases ms
  {
    if |ms| == 1 then RenderMember(ms[0]) else RenderMember(ms[0]) + ("," + RenderMembers(ms[1..]))
  }

  /** The layout characters of section 2 of RFC 8259. */
  const LAYOUT := " \t\n\r"

  /** Its structural characters, and the quote. */
  const SIGNS := "{}[]:,\""

  predicate Blank(s: string) {
    forall i :: 0 <= i < |s| ==> s[i] in LAYOUT
  }

  predicate LegalPieces(ps: seq<Piece>) {
    forall i :: 0 <= i < |ps| && ps[i].Plain? ==> ps[i].c != '"' && ps[i].c != '\\'
  }

  predicate LegalAtom(s: string) {
    s != "" && forall i :: 0 <= i < |s| ==> s[i] !in LAYOUT && s[i] !in SIGNS
  }

  predicate Legal(v: Value)
    decreases v
  {
    match v
    case Atom(text) => LegalAtom(text)
    case Text(content) => LegalPieces(content)
    case Array(elements, blank) => Blank(blank) && forall i :: 0 <= i < |elements| ==> LegalElement(elements[i])
    case Object(members, blank) => Blank(blank) && forall i :: 0 <= i < |members| ==> LegalMember(members[i])
  }

  predicate LegalElement(e: Element)
    decreases e
  {
    Blank(e.before) && Legal(e.value) && Blank(e.after)
  }

  predicate LegalMember(m: Member)
    decreases m
  {
    Blank(m.before) && LegalPieces(m.name) && Blank(m.between) && LegalElement(m.element)
  }

  // The same five measures, counted on the tree.

  datatype Measure = Measure(markers: nat, depth: nat, stringBytes: nat, quoted: bool, longest: nat)

  const ZERO := Measure(0, 0, 0, false, 0)

  function MaxNat(a: nat, b: nat): nat { if a < b then b else a }

  /** Side by side: counts add up, depths and lengths do not. */
  function Beside(a: Measure, b: Measure): Measure {
    Measure(a.markers + b.markers, MaxNat(a.depth, b.depth), a.stringBytes + b.stringBytes, a.quoted || b.quoted,
            MaxNat(a.longest, b.longest))
  }

  function OfString(ps: seq<Piece>): Measure { Measure(0, 0, |RenderPieces(ps)|, true, 0) }

  /** Between brackets: two structural characters more, one level deeper. */
  function Enclosed(m: Measure): Measure { m.(markers := m.markers + 2, depth := m.depth + 1) }

  function Separator(m: Measure): Measure { m.(markers := m.markers + 1) }

  function OfValue(v: Value): Measure
    decreases v
  {
    match v
    case Atom(text) => ZERO.(longest := |text|)
    case Text(content) => OfString(content)
    case Array(elements, _) => Enclosed(if elements == [] then ZERO else OfElements(elements))
    case Object(members, _) => Enclosed(if members == [] then ZERO else OfMembers(members))
  }

  function OfElements(es: seq<Element>): Measure
    requires es != []
    decreases es
  {
    if |es| == 1 then OfValue(es[0].value) else Beside(OfValue(es[0].value), Separator(OfElements(es[1..])))
  }

  /** A name, a colon and a value. */
  function OfMember(m: Member): Measure
    decreases m
  {
    Beside(OfString(m.name), Separator(OfValue(m.element.value)))
  }

  function OfMembers(ms: seq<Member>): Measure
    requires ms != []
    decreases ms
  {
    if |ms| == 1 then OfMember(ms[0]) else Beside(OfMember(ms[0]), Separator(OfMembers(ms[1..])))
  }

  // ---------------------------------------------------------------------------
  // Reading a rendered tree

  /** The reading after a text of a measure, with `tail` bytes of an unfinished atom. */
  function After(r: Reading, m: Measure, tail: nat): Reading {
    Reading(
      r.scan.(markers := r.scan.markers + m.markers, stringBytes := r.scan.stringBytes + m.stringBytes,
              literalBytes := tail),
      Shape(r.shape.markers + m.markers,
            if m.depth == 0 then r.shape.deepest else Raise(r.shape.deepest, r.scan.depth + m.depth),
            r.shape.stringBytes + m.stringBytes, r.shape.quoted || m.quoted, MaxNat(r.shape.longest, m.longest)))
  }

  /** Outside every string and between tokens. */
  predicate Between(r: Reading) {
    Consistent(r) && !r.scan.inString && !r.scan.escaped && r.scan.literalBytes == 0
  }

  lemma {:induction false} BlankRead(r: Reading, s: string)
    requires Blank(s) && !r.scan.inString && r.scan.literalBytes <= r.shape.longest && Consistent(r)
    ensures Read(r, s) == Reading(r.scan.(literalBytes := if s == "" then r.scan.literalBytes else 0), r.shape)
    decreases |s|
  {
    if s != "" {
      var next := Reading(Next(r.scan, s[0]), Observe(r.shape, r.scan, s[0]));
      assert next == Reading(r.scan.(literalBytes := 0), r.shape);
      BlankRead(next, s[1..]);
    }
  }

  lemma {:induction false} AtomRead(r: Reading, s: string)
    requires (s == "" || LegalAtom(s)) && !r.scan.inString && Consistent(r)
    ensures Read(r, s) == Reading(r.scan.(literalBytes := r.scan.literalBytes + |s|),
                                  r.shape.(longest := MaxNat(r.shape.longest, r.scan.literalBytes + |s|)))
    decreases |s|
  {
    if s != "" {
      var next := Reading(Next(r.scan, s[0]), Observe(r.shape, r.scan, s[0]));
      AtomRead(next, s[1..]);
    }
  }

  lemma {:induction false} PiecesRead(r: Reading, ps: seq<Piece>)
    requires LegalPieces(ps) && r.scan.inString && !r.scan.escaped && Consistent(r)
    ensures Read(r, RenderPieces(ps)) ==
      Reading(r.scan.(stringBytes := r.scan.stringBytes + |RenderPieces(ps)|),
              r.shape.(stringBytes := r.shape.stringBytes + |RenderPieces(ps)|, quoted := r.shape.quoted || ps != []))
    decreases |ps|
  {
    if ps != [] {
      var head := if ps[0].Plain? then [ps[0].c] else ['\\', ps[0].c];
      ReadMore(r, head, RenderPieces(ps[1..]));
      PieceRead(r, ps[0]);
      PiecesRead(Read(r, head), ps[1..]);
    }
  }

  lemma PieceRead(r: Reading, p: Piece)
    requires (p.Plain? ==> p.c != '"' && p.c != '\\') && r.scan.inString && !r.scan.escaped && Consistent(r)
    ensures var head := if p.Plain? then [p.c] else ['\\', p.c];
      Read(r, head) == Reading(r.scan.(stringBytes := r.scan.stringBytes + |head|),
                               r.shape.(stringBytes := r.shape.stringBytes + |head|, quoted := true))
  {
    var first := if p.Plain? then p.c else '\\';
    var next := Reading(Next(r.scan, first), Observe(r.shape, r.scan, first));
    OneRead(r, first);
    if p.Escape? {
      assert ['\\', p.c] == ['\\'] + [p.c];
      ReadMore(r, ['\\'], [p.c]);
      OneRead(next, p.c);
    }
  }

  lemma OneRead(r: Reading, c: char)
    ensures Read(r, [c]) == Reading(Next(r.scan, c), Observe(r.shape, r.scan, c))
  {
    assert [c][1..] == "";
  }

  lemma StringRead(r: Reading, ps: seq<Piece>)
    requires LegalPieces(ps) && !r.scan.inString && !r.scan.escaped && Consistent(r)
    ensures Read(r, RenderString(ps)) == After(r, OfString(ps), 0)
  {
    var inside := Reading(Next(r.scan, '"'), Observe(r.shape, r.scan, '"'));
    var quote: string := ['"'];
    OneRead(r, '"');
    assert RenderString(ps) == quote + (RenderPieces(ps) + quote);
    ReadMore(r, quote, RenderPieces(ps) + quote);
    ReadMore(inside, RenderPieces(ps), quote);
    PiecesRead(inside, ps);
    OneRead(Read(inside, RenderPieces(ps)), '"');
  }

  lemma AfterTwice(r: Reading, a: Measure, s: nat, b: Measure, t: nat)
    ensures After(After(r, a, s), b, t) == After(r, Beside(a, b), t)
  {
  }

  /** Inside some brackets, so that a separator is not the deepest marker. */
  predicate Nested(r: Reading) {
    r.shape.deepest.Some? && r.shape.deepest.value >= r.scan.depth
  }

  lemma SeparatorRead(r: Reading, c: char)
    requires (c == ',' || c == ':') && Nested(r) && !r.scan.inString && Consistent(r)
    ensures Read(r, [c]) == After(r, ZERO.(markers := 1), 0)
  {
    OneRead(r, c);
  }

  lemma AfterSeparator(r: Reading, m: Measure, t: nat)
    ensures After(After(r, ZERO.(markers := 1), 0), m, t) == After(r, Separator(m), t)
  {
  }

  /** Closing undoes the opening's level. */
  lemma ClosingRead(r: Reading, open: char, close: char, m: Measure, t: nat)
    requires Between(r) && ((open == '[' && close == ']') || (open == '{' && close == '}'))
    ensures var full := After(Reading(Next(r.scan, open), Observe(r.shape, r.scan, open)), m, t);
      Reading(Next(full.scan, close), Observe(full.shape, full.scan, close)) == After(r, Enclosed(m), 0)
  {
    var inside := Reading(Next(r.scan, open), Observe(r.shape, r.scan, open));
    assert inside.scan == r.scan.(markers := r.scan.markers + 1, depth := r.scan.depth + 1);
    assert inside.shape ==
      r.shape.(markers := r.shape.markers + 1, deepest := Raise(r.shape.deepest, r.scan.depth + 1));
  }

  /** Opening, content, closing. */
  lemma EnclosedRead(r: Reading, open: char, content: string, close: char, m: Measure, t: nat)
    requires Between(r) && ((open == '[' && close == ']') || (open == '{' && close == '}'))
    requires var inside := Reading(Next(r.scan, open), Observe(r.shape, r.scan, open));
      Read(inside, content) == After(inside, m, t)
    ensures Read(r, [open] + content + [close]) == After(r, Enclosed(m), 0)
  {
    var inside := Reading(Next(r.scan, open), Observe(r.shape, r.scan, open));
    OneRead(r, open);
    ReadMore(r, [open] + content, [close]);
    ReadMore(r, [open], content);
    OneRead(After(inside, m, t), close);
    ClosingRead(r, open, close, m, t);
  }

  function Tail(v: Value): nat { if v.Atom? then |v.text| else 0 }

  function TailOf(e: Element): nat { if e.after != "" then 0 else Tail(e.value) }

  /** What holds of every measure of a tree. */
  predicate Sane(m: Measure, tail: nat) {
    tail <= m.longest && (m.stringBytes > 0 ==> m.quoted) && (m.markers == 0 ==> m.depth == 0)
  }

  lemma {:induction false} ValueRead(r: Reading, v: Value)
    requires Legal(v) && Between(r)
    ensures Read(r, RenderValue(v)) == After(r, OfValue(v), Tail(v)) && Sane(OfValue(v), Tail(v))
    decreases v
  {
    match v
    case Atom(text) => AtomRead(r, text);
    case Text(content) => StringRead(r, content);
    case Array(elements, blank) =>
      var inside := Reading(Next(r.scan, '['), Observe(r.shape, r.scan, '['));
      if elements == [] {
        BlankRead(inside, blank);
        EnclosedRead(r, '[', blank, ']', ZERO, 0);
      } else {
        ElementsRead(inside, elements);
        EnclosedRead(r, '[', RenderElements(elements), ']', OfElements(elements), TailOf(elements[|elements| - 1]));
      }
    case Object(members, blank) =>
      var inside := Reading(Next(r.scan, '{'), Observe(r.shape, r.scan, '{'));
      if members == [] {
        BlankRead(inside, blank);
        EnclosedRead(r, '{', blank, '}', ZERO, 0);
      } else {
        MembersRead(inside, members);
        EnclosedRead(r, '{', RenderMembers(members), '}', OfMembers(members), TailOf(members[|members| - 1].element));
      }
  }

  lemma {:induction false} ElementRead(r: Reading, e: Element)
    requires LegalElement(e) && Between(r)
    ensures Read(r, RenderElement(e)) == After(r, OfValue(e.value), TailOf(e)) && Sane(OfValue(e.value), TailOf(e))
    ensures Consistent(After(r, OfValue(e.value), TailOf(e)))
    decreases e
  {
    ReadMore(r, e.before, RenderValue(e.value) + e.after);
    ReadMore(r, RenderValue(e.value), e.after);
    BlankRead(r, e.before);
    ValueRead(r, e.value);
    BlankRead(After(r, OfValue(e.value), Tail(e.value)), e.after);
  }

  lemma {:induction false} ElementsRead(r: Reading, es: seq<Element>)
    requires es != [] && (forall i :: 0 <= i < |es| ==> LegalElement(es[i])) && Between(r) && Nested(r)
    ensures var tail := TailOf(es[|es| - 1]);
      Read(r, RenderElements(es)) == After(r, OfElements(es), tail) && Sane(OfElements(es), tail)
    decreases es
  {
    ElementRead(r, es[0]);
    if |es| > 1 {
      var first := After(r, OfValue(es[0].value), TailOf(es[0]));
      NextRead(first, RenderElement(es[0]), r, RenderElements(es[1..]));
      ElementsRead(After(first, ZERO.(markers := 1), 0), es[1..]);
      AfterSeparator(first, OfElements(es[1..]), TailOf(es[|es| - 1]));
      AfterTwice(r, OfValue(es[0].value), TailOf(es[0]), Separator(OfElements(es[1..])), TailOf(es[|es| - 1]));
    }
  }

  /** A comma after a first part. */
  lemma NextRead(first: Reading, head: string, r: Reading, rest: string)
    requires Read(r, head) == first && Nested(first) && !first.scan.inString && Consistent(first)
    ensures Read(r, head + ("," + rest)) == Read(After(first, ZERO.(markers := 1), 0), rest)
  {
    var comma: string := ",";
    ReadMore(r, head, comma + rest);
    ReadMore(first, comma, rest);
    assert comma == [','];
    SeparatorRead(first, ',');
  }

  lemma {:induction false} MemberRead(r: Reading, m: Member)
    requires LegalMember(m) && Between(r) && Nested(r)
    ensures Read(r, RenderMember(m)) == After(r, OfMember(m), TailOf(m.element)) && Sane(OfMember(m), TailOf(m.element))
    ensures Consistent(After(r, OfMember(m), TailOf(m.element)))
    decreases m
  {
    var colon: string := ":";
    var named := After(r, OfString(m.name), 0);
    var parted := After(named, ZERO.(markers := 1), 0);
    ReadMore(r, m.before, RenderString(m.name) + (m.between + (colon + RenderElement(m.element))));
    BlankRead(r, m.before);
    ReadMore(r, RenderString(m.name), m.between + (colon + RenderElement(m.element)));
    StringRead(r, m.name);
    ReadMore(named, m.between, colon + RenderElement(m.element));
    BlankRead(named, m.between);
    ReadMore(named, colon, RenderElement(m.element));
    assert colon == [':'];
    SeparatorRead(named, ':');
    ElementRead(parted, m.element);
    AfterSeparator(named, OfValue(m.element.value), TailOf(m.element));
    AfterTwice(r, OfString(m.name), 0, Separator(OfValue(m.element.value)), TailOf(m.element));
  }

  lemma {:induction false} MembersRead(r: Reading, ms: seq<Member>)
    requires ms != [] && (forall i :: 0 <= i < |ms| ==> LegalMember(ms[i])) && Between(r) && Nested(r)
    ensures var tail := TailOf(ms[|ms| - 1].element);
      Read(r, RenderMembers(ms)) == After(r, OfMembers(ms), tail) && Sane(OfMembers(ms), tail)
    decreases ms
  {
    MemberRead(r, ms[0]);
    if |ms| > 1 {
      var first := After(r, OfMember(ms[0]), TailOf(ms[0].element));
      NextRead(first, RenderMember(ms[0]), r, RenderMembers(ms[1..]));
      MembersRead(After(first, ZERO.(markers := 1), 0), ms[1..]);
      AfterSeparator(first, OfMembers(ms[1..]), TailOf(ms[|ms| - 1].element));
      AfterTwice(r, OfMember(ms[0]), TailOf(ms[0].element), Separator(OfMembers(ms[1..])),
                 TailOf(ms[|ms| - 1].element));
    }
  }

  /** The limits, put on the tree. */
  predicate FitsLimits(limits: Limits, m: Measure) {
    && (m.markers > 0 ==> m.markers <= limits.markers && m.depth <= limits.depth)
    && (m.quoted ==> m.stringBytes <= limits.stringBytes)
    && (m.longest > 0 ==> m.longest <= limits.literalBytes)
  }

  /** For every JSON text, however it is laid out: the scan accepts it exactly when
      its structural characters, its nesting, its string bytes and its longest
      other token are within the limits, and it ends outside strings at depth 0. */
  lemma JsonAcceptedIff(e: Element, limits: Limits)
    requires LegalElement(e)
    ensures Within(limits, Read(NOTHING_READ, RenderElement(e)).shape) <==> FitsLimits(limits, OfValue(e.value))
    ensures var scan := Read(NOTHING_READ, RenderElement(e)).scan; !scan.inString && !scan.escaped && scan.depth == 0
  {
    ElementRead(NOTHING_READ, e);
    MarkersNest(e.value);
  }

  lemma {:induction false} MarkersNest(v: Value)
    ensures OfValue(v).markers > 0 <==> OfValue(v).depth > 0
  {
    match v
    case Atom(_) =>
    case Text(_) =>
    case Array(_, _) =>
    case Object(_, _) =>
  }
}
