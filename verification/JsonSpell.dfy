/** Every JSON text, however it is laid out and whichever escapes it uses, is parsed to what it means by
    RFC 8259. Numbers are left out. */
module JsonSpell {
  import opened Basics
  import opened Bytes
  import opened JsonString
  import opened JsonText
  import opened JsonTrip
  import opened JsonUnicode

  function Mark(c: char): seq<byte>
    requires c < 128 as char
  {
    [c as int as byte]
  }

  // ---------- Strings ----------

  /** How a part of a string is written: a byte as itself, a two-character escape, or \u literals. */
  datatype Piece = Plain(b: byte) | Short(c: char) | Coded(t: seq<byte>, point: nat)

  /** Section 7 of RFC 8259; bytes from 128 on are parts of characters. */
  predicate Legal(p: Piece) {
    match p
    case Plain(b) => b >= 32 && [b] != Mark('"') && [b] != Mark('\\')
    case Short(c) => c in "\"\\/bfnrt"
    case Coded(t, point) => Scalar(point) && Writes(t, point)
  }

  function PieceText(p: Piece): seq<byte>
    requires Legal(p)
  {
    match p
    case Plain(b) => [b]
    case Short(c) => Mark('\\') + Mark(c)
    case Coded(t, _) => t
  }

  /** The bytes a piece stands for, in UTF-8. */
  function PieceMeaning(p: Piece): seq<byte>
    requires Legal(p)
  {
    match p
    case Plain(b) => [b]
    case Short(c) =>
      if c == 'b' then [8] else if c == 't' then [9] else if c == 'n' then [10] else if c == 'f' then [12]
      else if c == 'r' then [13] else Mark(c)
    case Coded(_, point) => Utf8(point)
  }

  ghost predicate AllLegal(ps: seq<Piece>) { forall i :: 0 <= i < |ps| ==> Legal(ps[i]) }

  /** The pieces as written, with `more` behind them. */
  ghost function PiecesText(ps: seq<Piece>, more: seq<byte>): seq<byte>
    requires AllLegal(ps)
  {
    if ps == [] then more else PieceText(ps[0]) + PiecesText(ps[1..], more)
  }

  ghost function PiecesMeaning(ps: seq<Piece>): seq<byte>
    requires AllLegal(ps)
  {
    if ps == [] then [] else PieceMeaning(ps[0]) + PiecesMeaning(ps[1..])
  }

  lemma PieceReads(p: Piece, s: seq<byte>, n: nat, x: seq<byte>)
    requires Legal(p) && n < |s| && EndsAfter(s, n) && Decodes(s, n, x)
    ensures EndsAfter(PieceText(p) + s, n + |PieceText(p)|)
    ensures Decodes(PieceText(p) + s, n + |PieceText(p)|, PieceMeaning(p) + x)
  {
    match p
    case Plain(b) =>
      EndPlain(b, s, n);
      DecodePlain(b, s, n, x);
    case Short(c) => ShortReads(c, s, n, x);
    case Coded(t, point) =>
      EndLiteral(t, point, s, n);
      DecodeLiteral(t, point, s, n, x);
  }

  lemma PieceNoZero(p: Piece)
    requires Legal(p)
    ensures 0 !in PieceMeaning(p)
  {
  }

  lemma DecodePlain(b: byte, s: seq<byte>, n: nat, x: seq<byte>)
    requires b != BACKSLASH && n < |s| && Decodes(s, n, x)
    ensures Decodes([b] + s, n + 1, [b] + x)
  {
    assert Lock(0, 0);
    assert ([b] + s)[1..] == s;
  }

  lemma ShortReads(c: char, s: seq<byte>, n: nat, x: seq<byte>)
    requires Legal(Short(c)) && n < |s| && EndsAfter(s, n) && Decodes(s, n, x)
    ensures EndsAfter(PieceText(Short(c)) + s, n + 2)
    ensures Decodes(PieceText(Short(c)) + s, n + 2, PieceMeaning(Short(c)) + x)
  {
    var e := c as int as byte;
    assert PieceText(Short(c)) == [BACKSLASH, e];
    EndEscape(e, s, n);
    DecodeShort(e, s, n, x, PieceMeaning(Short(c))[0]);
    assert PieceMeaning(Short(c)) == [PieceMeaning(Short(c))[0]];
  }

  lemma DecodeShort(e: byte, s: seq<byte>, n: nat, x: seq<byte>, b: byte)
    requires e != 117 && Unletter(e) == Some(b) && n < |s| && Decodes(s, n, x)
    ensures Decodes([BACKSLASH, e] + s, n + 2, [b] + x)
  {
    assert Lock(0, 0);
    assert ([BACKSLASH, e] + s)[2..] == s;
  }

  /** How many bytes the pieces take. */
  ghost function PiecesLength(ps: seq<Piece>): nat
    requires AllLegal(ps)
  {
    if ps == [] then 0 else |PieceText(ps[0])| + PiecesLength(ps[1..])
  }

  lemma {:induction false} PiecesTail(ps: seq<Piece>, more: seq<byte>)
    requires AllLegal(ps)
    ensures var s, n := PiecesText(ps, Mark('"') + more), PiecesLength(ps); n < |s| && s[n + 1..] == more
    decreases |ps|
  {
    if ps != [] {
      var s, p := PiecesText(ps[1..], Mark('"') + more), PieceText(ps[0]);
      PiecesTail(ps[1..], more);
      assert (p + s)[|p| + PiecesLength(ps[1..]) + 1..] == s[PiecesLength(ps[1..]) + 1..];
    }
  }

  lemma {:induction false} PiecesNoZero(ps: seq<Piece>)
    requires AllLegal(ps)
    ensures 0 !in PiecesMeaning(ps)
    decreases |ps|
  {
    if ps != [] {
      PieceNoZero(ps[0]);
      PiecesNoZero(ps[1..]);
    }
  }

  lemma {:induction false} PiecesRead(ps: seq<Piece>, more: seq<byte>)
    requires AllLegal(ps)
    ensures var s, n := PiecesText(ps, Mark('"') + more), PiecesLength(ps);
      n < |s| && EndsAfter(s, n) && Decodes(s, n, PiecesMeaning(ps))
    decreases |ps|
  {
    PiecesTail(ps, more);
    if ps == [] {
      NothingRead(more);
    } else {
      var s, n := PiecesText(ps[1..], Mark('"') + more), PiecesLength(ps[1..]);
      PiecesRead(ps[1..], more);
      PieceReads(ps[0], s, n, PiecesMeaning(ps[1..]));
    }
  }

  lemma NothingRead(more: seq<byte>)
    ensures EndsAfter(Mark('"') + more, 0) && Decodes(Mark('"') + more, 0, [])
  {
    assert Mark('"') == [QUOTE];
  }

  ghost function StringText(ps: seq<Piece>, more: seq<byte>): seq<byte>
    requires AllLegal(ps)
  {
    Mark('"') + PiecesText(ps, Mark('"') + more)
  }

  lemma StringRead(s: seq<byte>, n: nat, x: seq<byte>)
    requires n < |s| && EndsAfter(s, n) && Decodes(s, n, x) && 0 !in x
    ensures ParseString([QUOTE] + s) == Some((x, s[n + 1..]))
  {
    CutNone(x);
    assert ([QUOTE] + s)[1..] == s;
    assert Lock(0, 0);
  }

  /** A string is parsed to what its pieces mean. */
  lemma StringSpelled(ps: seq<Piece>, more: seq<byte>)
    requires AllLegal(ps)
    ensures ParseString(StringText(ps, more)) == Some((PiecesMeaning(ps), more))
  {
    PiecesRead(ps, more);
    PiecesTail(ps, more);
    PiecesNoZero(ps);
    StringRead(PiecesText(ps, Mark('"') + more), PiecesLength(ps), PiecesMeaning(ps));
  }

  /** The digits of a literal, in either case. */
  lemma DigitsMean(i: nat)
    requires i < 16
    ensures HexValue("0123456789abcdef"[i] as int as byte) == HexValue("0123456789ABCDEF"[i] as int as byte) == Some(i)
  {
  }

  // ---------- Values ----------

  /** A value as it is written: strings with their pieces, and the white space between the tokens. */
  datatype Layout =
    | Word(j: Json) | Str(ps: seq<Piece>) | Arr(ws: seq<byte>, cells: Cells) | Obj(ws: seq<byte>, fields: Fields)
  datatype Cells = NoCell | Cell(before: seq<byte>, value: Layout, after: seq<byte>, next: Cells)
  datatype Fields =
    | NoField
    | Field(before: seq<byte>, name: seq<Piece>, colon: seq<byte>, gap: seq<byte>, value: Layout, after: seq<byte>,
            next: Fields)

  /** The white space of section 2 of RFC 8259. */
  ghost predicate White(ws: seq<byte>) {
    forall i :: 0 <= i < |ws| ==> [ws[i]] in [Mark(' '), Mark('\t'), Mark('\n'), Mark('\r')]
  }

  ghost predicate Proper(l: Layout) {
    match l
    case Word(j) => j.Null? || j.False? || j.True?
    case Str(ps) => AllLegal(ps)
    case Arr(ws, cells) => White(ws) && ProperCells(cells)
    case Obj(ws, fields) => White(ws) && ProperFields(fields)
  }

  ghost predicate ProperCells(cells: Cells) {
    match cells
    case NoCell => true
    case Cell(before, value, after, next) => White(before) && Proper(value) && White(after) && ProperCells(next)
  }

  ghost predicate ProperFields(fields: Fields) {
    match fields
    case NoField => true
    case Field(before, name, colon, gap, value, after, next) =>
      && White(before) && AllLegal(name) && White(colon) && White(gap) && Proper(value) && White(after)
      && ProperFields(next)
  }

  function Ascii(s: string): seq<byte>
    requires forall i :: 0 <= i < |s| ==> s[i] < 128 as char
  {
    seq(|s|, i requires 0 <= i < |s| => s[i] as int as byte)
  }

  /** The text of a value, with `more` behind it. */
  ghost function Text(l: Layout, more: seq<byte>): seq<byte>
    requires Proper(l)
    decreases l
  {
    match l
    case Word(j) => (if j.Null? then Ascii("null") else if j.False? then Ascii("false") else Ascii("true")) + more
    case Str(ps) => StringText(ps, more)
    case Arr(ws, cells) => Mark('[') + if cells.NoCell? then ws + (Mark(']') + more) else CellsText(cells, more)
    case Obj(ws, fields) => Mark('{') + if fields.NoField? then ws + (Mark('}') + more) else FieldsText(fields, more)
  }

  /** Elements with commas between them and the bracket behind them. */
  ghost function CellsText(cells: Cells, more: seq<byte>): seq<byte>
    requires ProperCells(cells) && cells.Cell?
    decreases cells, 1
  {
    cells.before + Text(cells.value, AfterCell(cells, more))
  }

  ghost function AfterCell(cells: Cells, more: seq<byte>): seq<byte>
    requires ProperCells(cells) && cells.Cell?
    decreases cells, 0
  {
    cells.after + if cells.next.Cell? then Mark(',') + CellsText(cells.next, more) else Mark(']') + more
  }

  /** Members with commas between them and the brace behind them. */
  ghost function FieldsText(fields: Fields, more: seq<byte>): seq<byte>
    requires ProperFields(fields) && fields.Field?
    decreases fields, 2
  {
    fields.before + StringText(fields.name, AfterFieldName(fields, more))
  }

  ghost function AfterFieldName(fields: Fields, more: seq<byte>): seq<byte>
    requires ProperFields(fields) && fields.Field?
    decreases fields, 1
  {
    fields.colon + (Mark(':') + (fields.gap + Text(fields.value, AfterField(fields, more))))
  }

  ghost function AfterField(fields: Fields, more: seq<byte>): seq<byte>
    requires ProperFields(fields) && fields.Field?
    decreases fields, 0
  {
    fields.after + if fields.next.Field? then Mark(',') + FieldsText(fields.next, more) else Mark('}') + more
  }

  /** What a text means. */
  ghost function Tree(l: Layout): Json
    requires Proper(l)
  {
    match l
    case Word(j) => j
    case Str(ps) => String(PiecesMeaning(ps))
    case Arr(_, cells) => Array(TreeItems(cells))
    case Obj(_, fields) => Object(TreeMembers(fields))
  }

  ghost function TreeItems(cells: Cells): Items
    requires ProperCells(cells)
  {
    if cells.NoCell? then NoItem else Item(Tree(cells.value), TreeItems(cells.next))
  }

  ghost function TreeMembers(fields: Fields): Members
    requires ProperFields(fields)
  {
    if fields.NoField? then NoMember
    else Member(PiecesMeaning(fields.name), Tree(fields.value), TreeMembers(fields.next))
  }

  lemma WhiteSkip(ws: seq<byte>, x: seq<byte>)
    requires White(ws) && x != [] && x[0] > 32
    ensures Skip(ws + x) == x
  {
    forall i | 0 <= i < |ws| ensures ws[i] <= 32 {
      assert [ws[i]] in [Mark(' '), Mark('\t'), Mark('\n'), Mark('\r')];
      assert [ws[i]][0] == ws[i];
    }
    SkipBlank(ws, x);
  }

  /** A value starts with a letter, a quote or an opening bracket or brace. */
  lemma TextFirst(l: Layout, more: seq<byte>)
    requires Proper(l)
    ensures var t := Text(l, more); t != [] && 32 < t[0] < 128 && t[0] != CLOSE_ARRAY && t[0] != CLOSE_OBJECT
  {
  }

  lemma WordsAre()
    ensures Ascii("null") == NULL && Ascii("false") == FALSE && Ascii("true") == TRUE
  {
  }

  lemma {:induction false} Spelled(l: Layout, depth: nat, more: seq<byte>)
    requires Proper(l) && depth + Nesting(Tree(l)) <= NESTING_LIMIT
    ensures Reads(Text(l, more), depth, Tree(l), more)
    decreases l
  {
    match l
    case Word(j) =>
      WordsAre();
      ReadsWord(j, more, false, depth, 0);
    case Str(ps) => StringHere(ps, depth, more);
    case Arr(ws, cells) => ArraySpelled(ws, cells, depth, more);
    case Obj(ws, fields) => ObjectSpelled(ws, fields, depth, more);
  }

  lemma StringHere(ps: seq<Piece>, depth: nat, more: seq<byte>)
    requires AllLegal(ps)
    ensures Reads(StringText(ps, more), depth, String(PiecesMeaning(ps)), more)
  {
    StringSpelled(ps, more);
    assert StringText(ps, more)[0] == QUOTE;
    NoWord(StringText(ps, more));
  }

  lemma {:induction false} ArraySpelled(ws: seq<byte>, cells: Cells, depth: nat, more: seq<byte>)
    requires White(ws) && ProperCells(cells) && depth + 1 + NestingItems(TreeItems(cells)) <= NESTING_LIMIT
    ensures Reads(Text(Arr(ws, cells), more), depth, Array(TreeItems(cells)), more)
    decreases cells, 1
  {
    if cells.NoCell? {
      WhiteSkip(ws, Mark(']') + more);
      ReadsNoItems(ws + (Mark(']') + more), more, depth);
    } else {
      CellsSpelled(cells, depth + 1, more);
      ReadsArray(CellsText(cells, more), TreeItems(cells), more, depth);
    }
  }

  lemma {:induction false} CellsSpelled(cells: Cells, depth: nat, more: seq<byte>)
    requires cells.Cell? && ProperCells(cells) && depth + NestingItems(TreeItems(cells)) <= NESTING_LIMIT
    ensures var t := Skip(CellsText(cells, more)); !At(t, CLOSE_ARRAY) && ReadsItems(t, depth, TreeItems(cells), more)
    decreases cells, 0
  {
    var rest, j := AfterCell(cells, more), Tree(cells.value);
    var t := Text(cells.value, rest);
    TextFirst(cells.value, rest);
    WhiteSkip(cells.before, t);
    Spelled(cells.value, depth, rest);
    if cells.next.NoCell? {
      WhiteSkip(cells.after, Mark(']') + more);
      ReadsLastItem(t, depth, j, rest, more);
    } else {
      var next := CellsText(cells.next, more);
      WhiteSkip(cells.after, Mark(',') + next);
      CellsSpelled(cells.next, depth, more);
      ReadsMoreItems(t, depth, j, rest, next, TreeItems(cells.next), more);
    }
  }

  lemma {:induction false} ObjectSpelled(ws: seq<byte>, fields: Fields, depth: nat, more: seq<byte>)
    requires White(ws) && ProperFields(fields) && depth + 1 + NestingMembers(TreeMembers(fields)) <= NESTING_LIMIT
    ensures Reads(Text(Obj(ws, fields), more), depth, Object(TreeMembers(fields)), more)
    decreases fields, 1
  {
    if fields.NoField? {
      WhiteSkip(ws, Mark('}') + more);
      ReadsNoMembers(ws + (Mark('}') + more), more, depth);
    } else {
      FieldsSpelled(fields, depth + 1, more);
      ReadsObject(FieldsText(fields, more), TreeMembers(fields), more, depth);
    }
  }

  lemma {:induction false} FieldsSpelled(fields: Fields, depth: nat, more: seq<byte>)
    requires fields.Field? && ProperFields(fields) && depth + NestingMembers(TreeMembers(fields)) <= NESTING_LIMIT
    ensures var t := Skip(FieldsText(fields, more));
      !At(t, CLOSE_OBJECT) && ReadsMembers(t, depth, TreeMembers(fields), more)
    decreases fields, 0
  {
    var name, rest, j := PiecesMeaning(fields.name), AfterField(fields, more), Tree(fields.value);
    var c := AfterFieldName(fields, more);
    var v := fields.gap + Text(fields.value, rest);
    var t := StringText(fields.name, c);
    NameSpelled(fields, more);
    Spelled(fields.value, depth, rest);
    if fields.next.NoField? {
      WhiteSkip(fields.after, Mark('}') + more);
      ReadsLastMember(t, depth, name, c, v, j, rest, more);
    } else {
      var next := FieldsText(fields.next, more);
      WhiteSkip(fields.after, Mark(',') + next);
      FieldsSpelled(fields.next, depth, more);
      ReadsMoreMembers(t, depth, name, c, v, j, rest, next, TreeMembers(fields.next), more);
    }
  }

  lemma NameSpelled(fields: Fields, more: seq<byte>)
    requires fields.Field? && ProperFields(fields)
    ensures var c, x := AfterFieldName(fields, more), Text(fields.value, AfterField(fields, more));
      var t := StringText(fields.name, c);
      && Skip(FieldsText(fields, more)) == t && !At(t, CLOSE_OBJECT)
      && ParseString(t) == Some((PiecesMeaning(fields.name), c))
      && Skip(c) == [COLON] + (fields.gap + x) && Skip(fields.gap + x) == x
  {
    var c, x := AfterFieldName(fields, more), Text(fields.value, AfterField(fields, more));
    StringSpelled(fields.name, c);
    WhiteSkip(fields.before, StringText(fields.name, c));
    WhiteSkip(fields.colon, Mark(':') + (fields.gap + x));
    TextFirst(fields.value, AfterField(fields, more));
    WhiteSkip(fields.gap, x);
  }

  /**
    A JSON text of words, strings, arrays and objects, with any white space and any escapes, is parsed to
    what it means exactly if it is nested at most 1000 deep, whatever follows it.
  */
  lemma TextMeans(ws: seq<byte>, l: Layout, more: seq<byte>)
    requires White(ws) && Proper(l)
    ensures Parse(ws + Text(l, more)) == Some(Tree(l)) <==> Nesting(Tree(l)) <= NESTING_LIMIT
  {
    var t := Text(l, more);
    TextFirst(l, more);
    NoMarkFirst(ws, t);
    WhiteSkip(ws, t);
    if Nesting(Tree(l)) <= NESTING_LIMIT {
      Spelled(l, 0, more);
      assert Lock(0, 0);
    } else {
      ParsedNesting(t, 0);
    }
  }

  lemma NoMarkFirst(ws: seq<byte>, t: seq<byte>)
    requires White(ws) && t != [] && t[0] < 128
    ensures SkipBom(ws + t) == ws + t
  {
    var s := ws + t;
    if ws != [] {
      assert [ws[0]] in [Mark(' '), Mark('\t'), Mark('\n'), Mark('\r')];
      assert [ws[0]][0] == ws[0] == s[0];
    }
    if |s| >= 4 { assert s[..3][0] == s[0]; }
  }
}
