/** The three ways to write an argument of a line: as a word, in double quotes, in single quotes. */
module SdsSpell {
  import opened Basics
  import opened Bytes
  import opened Sds

  datatype Spelling = Word | InDoubles | InSingles

  /** A byte that stands for itself outside quotes. */
  predicate Ordinary(b: byte) { b != 0 && !IsSpace(b) && b != QUOTE && b != APOSTROPHE }

  /** The string can be written that way. In single quotes the zero byte cannot be written, and a backslash not
      at the end, where it would take the closing quote. */
  predicate CanSpell(t: seq<byte>, how: Spelling) {
    match how
    case Word => t != [] && forall i :: 0 <= i < |t| ==> Ordinary(t[i])
    case InDoubles => true
    case InSingles => (forall i :: 0 <= i < |t| ==> t[i] != 0) && (t != [] ==> t[|t| - 1] != BACKSLASH)
  }

  /** In single quotes only the apostrophe is escaped. */
  function SingleBody(t: seq<byte>): seq<byte> {
    if t == [] then [] else (if t[0] == APOSTROPHE then [BACKSLASH, APOSTROPHE] else [t[0]]) + SingleBody(t[1..])
  }

  function Spell(t: seq<byte>, how: Spelling): seq<byte> {
    match how
    case Word => t
    case InDoubles => Repr(t)
    case InSingles => [APOSTROPHE] + SingleBody(t) + [APOSTROPHE]
  }

  // ---------- Reading one argument ----------

  /** A word is followed by the end of the line, or by a blank, which is read with it. */
  lemma {:induction false} ReadWord(t: seq<byte>, more: seq<byte>, cur: seq<byte>)
    requires forall i :: 0 <= i < |t| ==> Ordinary(t[i])
    ensures Reads(t + [], Plain, cur, cur + t, []) && Reads(t + ([SPACE] + more), Plain, cur, cur + t, more)
    decreases |t|
  {
    if t == [] {
      WordEnds(more, cur);
      assert t + ([SPACE] + more) == [SPACE] + more && t + [] == [] && cur + t == cur;
    } else {
      var b, rest := t[0], t[1..];
      assert Ordinary(b);
      ReadWord(rest, more, cur + [b]);
      assert cur + [b] + rest == cur + t;
      WordByte(b, rest + [], cur, cur + t, []);
      WordByte(b, rest + ([SPACE] + more), cur, cur + t, more);
      assert t + [] == [b] + (rest + []) && t + ([SPACE] + more) == [b] + (rest + ([SPACE] + more));
    }
  }

  lemma WordEnds(more: seq<byte>, cur: seq<byte>)
    ensures Reads([], Plain, cur, cur, []) && Reads([SPACE] + more, Plain, cur, cur, more)
  {
    assert ([SPACE] + more)[1..] == more;
  }

  lemma WordByte(b: byte, line: seq<byte>, cur: seq<byte>, t: seq<byte>, rest: seq<byte>)
    requires Ordinary(b) && Reads(line, Plain, cur + [b], t, rest)
    ensures Reads([b] + line, Plain, cur, t, rest)
  {
    assert ([b] + line)[1..] == line;
    ReadsOn([b] + line, Plain, cur, line, Plain, cur + [b], t, rest);
  }

  lemma {:induction false} ReadSingleBody(t: seq<byte>, more: seq<byte>, cur: seq<byte>)
    requires CanSpell(t, InSingles) && Ends(more)
    ensures Reads(SingleBody(t) + ([APOSTROPHE] + more), Single, cur, cur + t, more)
    decreases |t|
  {
    var tail := [APOSTROPHE] + more;
    if t == [] {
      SingleEnds(more, cur);
      assert SingleBody(t) + tail == tail && cur + t == cur;
    } else {
      var b, rest := t[0], t[1..];
      var line := SingleBody(rest) + tail;
      assert cur + [b] + rest == cur + t;
      ReadSingleBody(rest, more, cur + [b]);
      if b == APOSTROPHE {
        SingleApostrophe(line, cur, cur + t, more);
        assert SingleBody(t) + tail == [BACKSLASH, APOSTROPHE] + line;
      } else {
        if b == BACKSLASH { SingleHead(rest, tail); }
        SingleByte(b, line, cur, cur + t, more);
        assert SingleBody(t) + tail == [b] + line;
      }
    }
  }

  /** What follows a backslash that is not the last byte does not start with an apostrophe. */
  lemma SingleHead(t: seq<byte>, tail: seq<byte>)
    requires t != []
    ensures (SingleBody(t) + tail)[0] != APOSTROPHE
  {
  }

  lemma SingleEnds(more: seq<byte>, cur: seq<byte>)
    requires Ends(more)
    ensures Reads([APOSTROPHE] + more, Single, cur, cur, more)
  {
    assert ([APOSTROPHE] + more)[1..] == more;
  }

  lemma SingleApostrophe(line: seq<byte>, cur: seq<byte>, t: seq<byte>, rest: seq<byte>)
    requires Reads(line, Single, cur + [APOSTROPHE], t, rest)
    ensures Reads([BACKSLASH, APOSTROPHE] + line, Single, cur, t, rest)
  {
    var all := [BACKSLASH, APOSTROPHE] + line;
    assert all[2..] == line;
    ReadsOn(all, Single, cur, line, Single, cur + [APOSTROPHE], t, rest);
  }

  lemma SingleByte(b: byte, line: seq<byte>, cur: seq<byte>, t: seq<byte>, rest: seq<byte>)
    requires b != 0 && b != APOSTROPHE && (b == BACKSLASH ==> At(line, 0) != APOSTROPHE)
    requires Reads(line, Single, cur + [b], t, rest)
    ensures Reads([b] + line, Single, cur, t, rest)
  {
    var all := [b] + line;
    assert all[1..] == line && At(all, 1) == At(line, 0);
    ReadsOn(all, Single, cur, line, Single, cur + [b], t, rest);
  }

  lemma ReadSingle(t: seq<byte>, more: seq<byte>)
    requires CanSpell(t, InSingles) && Ends(more)
    ensures Reads(Spell(t, InSingles) + more, Plain, [], t, more)
  {
    var line := SingleBody(t) + ([APOSTROPHE] + more);
    ReadSingleBody(t, more, []);
    assert Spell(t, InSingles) + more == [APOSTROPHE] + line && ([APOSTROPHE] + line)[1..] == line && [] + t == t;
    ReadsOn([APOSTROPHE] + line, Plain, [], line, Single, [], t, more);
  }

  // ---------- Lines ----------

  ghost predicate AllSpell(ts: seq<seq<byte>>, hows: seq<Spelling>) {
    |ts| == |hows| && forall i :: 0 <= i < |ts| ==> CanSpell(ts[i], hows[i])
  }

  function Spelled(ts: seq<seq<byte>>, hows: seq<Spelling>): (r: seq<seq<byte>>)
    requires |ts| == |hows|
    ensures |r| == |ts|
  {
    if ts == [] then [] else [Spell(ts[0], hows[0])] + Spelled(ts[1..], hows[1..])
  }

  /** The first argument of a line, with nothing or a blank and another line behind it. */
  lemma SplitFirst(t: seq<byte>, how: Spelling, last: bool, line: seq<byte>, ts: seq<seq<byte>>)
    requires CanSpell(t, how) && (if last then ts == [] else Splits(line, ts))
    ensures Splits(Spell(t, how) + (if last then [] else [SPACE] + line), [t] + ts)
  {
    var x := Spell(t, how);
    var rest := if last then [] else [SPACE] + line;
    if last { assert Splits([], []); } else { SplitsBlank(line, ts); }
    assert (x + rest)[0] == x[0];
    match how
    case InDoubles =>
      ReadRepr(t, rest);
      SplitsOn(x + rest, t, rest, ts);
    case InSingles =>
      ReadSingle(t, rest);
      SplitsOn(x + rest, t, rest, ts);
    case Word =>
      ReadWord(t, line, []);
      assert [] + t == t && Ordinary(t[0]);
      SplitsOn(x + rest, t, if last then [] else line, ts);
  }

  lemma {:induction false} SplitsSpelled(ts: seq<seq<byte>>, hows: seq<Spelling>)
    requires AllSpell(ts, hows)
    ensures Splits(Join(Spelled(ts, hows), [SPACE]), ts)
    decreases |ts|
  {
    if ts != [] {
      var all, more := Spelled(ts, hows), Spelled(ts[1..], hows[1..]);
      assert all[0] == Spell(ts[0], hows[0]) && all[1..] == more;
      SplitsSpelled(ts[1..], hows[1..]);
      SplitFirst(ts[0], hows[0], |ts| == 1, Join(more, [SPACE]), ts[1..]);
      if |ts| == 1 { assert all[0] + [] == all[0]; }
      assert [ts[0]] + ts[1..] == ts;
    }
  }

  /** Any list of strings, each written in any way it can be written, joined with blanks, is split into the
      same list. */
  lemma SpellingRoundTrip(ts: seq<seq<byte>>, hows: seq<Spelling>)
    requires AllSpell(ts, hows)
    ensures Arguments(Join(Spelled(ts, hows), [SPACE])) == Some(ts)
  {
    SplitsSpelled(ts, hows);
    assert Lock(0, 0);
  }

  // ---------- All ways to write a byte in double quotes ----------

  function Code(c: char): byte
    requires c < 128 as char
  {
    c as int as byte
  }

  /** d is a hexadecimal digit, in either case, of value v. */
  predicate Digit(d: byte, v: nat) {
    v < 16 && (d == Code("0123456789abcdef"[v]) || d == Code("0123456789ABCDEF"[v]))
  }

  /** What the letters after a backslash name: new line, carriage return, tab, backspace, bell. */
  predicate Named(c: byte, b: byte) {
    || (c == Code('n') && b == 10) || (c == Code('r') && b == 13) || (c == Code('t') && b == 9)
    || (c == Code('b') && b == 8) || (c == Code('a') && b == 7)
  }

  predicate AsItself(e: seq<byte>, b: byte) { e == [b] && b != 0 && b != Code('"') && b != Code('\\') }

  predicate ByName(e: seq<byte>, b: byte) { |e| == 2 && e[0] == Code('\\') && Named(e[1], b) }

  predicate Behind(e: seq<byte>, b: byte) {
    e == [Code('\\'), b] && b != 0 && b != Code('x') && b != Code('n') && b != Code('r') && b != Code('t')
    && b != Code('b') && b != Code('a')
  }

  predicate ByValue(e: seq<byte>, b: byte) {
    |e| == 4 && e[0] == Code('\\') && e[1] == Code('x') && Digit(e[2], b as nat / 16) && Digit(e[3], b as nat % 16)
  }

  /** e stands for byte b: the byte itself, its name, its value in two digits, or, for a byte that is no
      such letter, the byte behind a backslash. */
  predicate Stands(e: seq<byte>, b: byte) {
    AsItself(e, b) || ByName(e, b) || Behind(e, b) || ByValue(e, b)
  }

  lemma DigitOf(v: byte)
    requires v < 16
    ensures Digit(HexDigit(v), v as nat)
  {
  }

  /** The quoted form of sdscatrepr is one of these ways. */
  lemma EscapeStands(b: byte)
    ensures Stands(Escape(b), b)
  {
    DigitOf(b / 16);
    DigitOf(b % 16);
    if |Escape(b)| == 2 { assert ByName(Escape(b), b) || Behind(Escape(b), b); }
  }

  lemma DigitIs(d: byte, v: nat)
    requires Digit(d, v)
    ensures IsHex(d) && HexValue(d) as nat == v
  {
  }

  lemma ValueStep(e: seq<byte>, b: byte, more: seq<byte>, cur: seq<byte>)
    requires ByValue(e, b)
    ensures Step(e + more, Quoted, cur) == Go(more, Quoted, cur + [b])
  {
    var line := e + more;
    DigitIs(e[2], b as nat / 16);
    DigitIs(e[3], b as nat % 16);
    assert HexValue(e[2]) * 16 + HexValue(e[3]) == b;
    assert line[4..] == more;
    assert At(line, 0) == e[0] && At(line, 1) == e[1] && At(line, 2) == e[2] && At(line, 3) == e[3];
  }

  lemma PairStep(e: seq<byte>, b: byte, more: seq<byte>, cur: seq<byte>)
    requires ByName(e, b) || Behind(e, b)
    ensures Step(e + more, Quoted, cur) == Go(more, Quoted, cur + [b])
  {
    var line := e + more;
    assert line[2..] == more && At(line, 0) == e[0] && At(line, 1) == e[1];
    assert Unescape(e[1]) == b;
  }

  lemma StandsStep(e: seq<byte>, b: byte, more: seq<byte>, cur: seq<byte>)
    requires Stands(e, b)
    ensures Step(e + more, Quoted, cur) == Go(more, Quoted, cur + [b])
  {
    if ByValue(e, b) {
      ValueStep(e, b, more, cur);
    } else if AsItself(e, b) {
      assert (e + more)[1..] == more;
    } else {
      PairStep(e, b, more, cur);
    }
  }

  ghost predicate AllStand(es: seq<seq<byte>>, t: seq<byte>) {
    |es| == |t| && forall i :: 0 <= i < |t| ==> Stands(es[i], t[i])
  }

  /** The pieces, with `more` behind them. */
  function Pieces(es: seq<seq<byte>>, more: seq<byte>): seq<byte> {
    if es == [] then more else es[0] + Pieces(es[1..], more)
  }

  lemma {:induction false} ReadPieces(es: seq<seq<byte>>, t: seq<byte>, more: seq<byte>, cur: seq<byte>)
    requires AllStand(es, t) && Ends(more)
    ensures Reads(Pieces(es, [QUOTE] + more), Quoted, cur, cur + t, more)
    decreases |t|
  {
    if t == [] {
      assert cur + t == cur;
      ReadsEnd(more, cur);
    } else {
      var b, rest := t[0], Pieces(es[1..], [QUOTE] + more);
      Assoc(cur, [b], t[1..]);
      assert [b] + t[1..] == t;
      ReadPieces(es[1..], t[1..], more, cur + [b]);
      StandsStep(es[0], b, rest, cur);
      ReadsOn(es[0] + rest, Quoted, cur, rest, Quoted, cur + [b], cur + t, more);
    }
  }

  /** A string in double quotes, each byte written in any of its ways, is read as the string. */
  lemma AnyEscapes(es: seq<seq<byte>>, t: seq<byte>)
    requires AllStand(es, t)
    ensures Arguments([Code('"')] + Pieces(es, [Code('"')])) == Some([t])
  {
    var body := Pieces(es, [QUOTE] + []);
    assert [QUOTE] + [] == [Code('"')];
    ReadPieces(es, t, [], []);
    assert [] + t == t && ([QUOTE] + body)[1..] == body;
    ReadsOn([QUOTE] + body, Plain, [], body, Quoted, [], t, []);
    SplitsEnd();
    SplitsOn([QUOTE] + body, t, [], []);
    assert Lock(0, 0);
    assert [t] + [] == [t];
  }

  lemma SplitsEnd()
    ensures Splits([], [])
  {
  }
}
