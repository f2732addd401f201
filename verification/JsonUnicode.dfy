/** The \u literals of JSON strings: what they are parsed to is the UTF-8 form of the characters they name. */
module JsonUnicode {
  import opened Basics
  import opened Bytes
  import opened JsonString

  // ---------- UTF-8, read ----------

  /** How many bytes follow the first byte of a character. */
  function Follow(b: byte): Option<nat> {
    if b < 0x80 then Some(0)
    else if 0xC0 <= b < 0xE0 then Some(1)
    else if 0xE0 <= b < 0xF0 then Some(2)
    else if 0xF0 <= b < 0xF8 then Some(3)
    else None
  }

  /** The part of a character's value that its first byte gives. */
  function Lead(b: byte): nat
    requires Follow(b).Some?
  {
    match Follow(b).value
    case 0 => b as nat
    case 1 => b as nat - 0xC0
    case 2 => b as nat - 0xE0
    case _ => b as nat - 0xF0
  }

  predicate Continues(s: seq<byte>) { forall i :: 0 <= i < |s| ==> 0x80 <= s[i] < 0xC0 }

  /** Six more bits from every following byte. */
  function Gathered(v: nat, s: seq<byte>): nat
    requires Continues(s)
    decreases |s|
  {
    if s == [] then v else Gathered(v * 0x40 + (s[0] as nat - 0x80), s[1..])
  }

  /** The first character of a string, and the rest. */
  function ReadPoint(s: seq<byte>): (r: Option<(nat, seq<byte>)>)
    ensures r.Some? ==> |r.value.1| < |s|
  {
    if s == [] || Follow(s[0]).None? then None
    else
      var n := Follow(s[0]).value;
      if |s| <= n || !Continues(s[1..n + 1]) then None
      else Some((Gathered(Lead(s[0]), s[1..n + 1]), s[n + 1..]))
  }

  function ReadPoints(s: seq<byte>): Option<seq<nat>>
    decreases |s|
  {
    if s == [] then Some([])
    else
      match ReadPoint(s)
      case None => None
      case Some(p) =>
        match ReadPoints(p.1)
        case None => None
        case Some(cs) => Some([p.0] + cs)
  }

  /** What is written for a character is read as that character. */
  lemma PointBack(c: nat, more: seq<byte>)
    requires c < 0x11_0000
    ensures ReadPoint(Utf8(c) + more) == Some((c, more))
  {
    var u := Utf8(c);
    var s := u + more;
    var n := |u| - 1;
    assert s[0] == u[0] && s[1..n + 1] == u[1..] && s[n + 1..] == more;
    Sextets(c);
    assert Follow(u[0]) == Some(n) && Continues(u[1..]);
    PointValue(c);
  }

  lemma Sextets(c: nat)
    ensures c == c / 0x40 * 0x40 + c % 0x40
    ensures c / 0x40 == c / 0x1000 * 0x40 + c / 0x40 % 0x40
    ensures c / 0x1000 == c / 0x4_0000 * 0x40 + c / 0x1000 % 0x40
  {
  }

  lemma GatherOne(v: nat, b: byte, s: seq<byte>)
    requires 0x80 <= b < 0xC0 && Continues(s)
    ensures Continues([b] + s) && Gathered(v, [b] + s) == Gathered(v * 0x40 + (b as nat - 0x80), s)
  {
    assert ([b] + s)[1..] == s;
  }

  lemma PointValue(c: nat)
    requires c < 0x11_0000
    ensures var u := Utf8(c);
      Follow(u[0]) == Some(|u| - 1) && Continues(u[1..]) && Gathered(Lead(u[0]), u[1..]) == c
  {
    if c < 0x80 {
      assert Utf8(c)[1..] == [];
    } else if c < 0x800 {
      TwoBytes(c);
    } else if c < 0x1_0000 {
      ThreeBytes(c);
    } else {
      FourBytes(c);
    }
  }

  lemma TwoBytes(c: nat)
    requires 0x80 <= c < 0x800
    ensures var u := Utf8(c); Follow(u[0]) == Some(1) && Continues(u[1..]) && Gathered(Lead(u[0]), u[1..]) == c
  {
    var u := Utf8(c);
    Sextets(c);
    GatherOne(c / 0x40, u[1], []);
    assert u[1..] == [u[1]] + [];
  }

  lemma ThreeBytes(c: nat)
    requires 0x800 <= c < 0x1_0000
    ensures var u := Utf8(c); Follow(u[0]) == Some(2) && Continues(u[1..]) && Gathered(Lead(u[0]), u[1..]) == c
  {
    var u := Utf8(c);
    Sextets(c);
    GatherOne(c / 0x40, u[2], []);
    GatherOne(c / 0x1000, u[1], [u[2]] + []);
    assert u[1..] == [u[1]] + ([u[2]] + []);
  }

  lemma FourBytes(c: nat)
    requires 0x1_0000 <= c < 0x11_0000
    ensures var u := Utf8(c); Follow(u[0]) == Some(3) && Continues(u[1..]) && Gathered(Lead(u[0]), u[1..]) == c
  {
    var u := Utf8(c);
    Sextets(c);
    GatherOne(c / 0x40, u[3], []);
    GatherOne(c / 0x1000, u[2], [u[3]] + []);
    GatherOne(c / 0x4_0000, u[1], [u[2]] + ([u[3]] + []));
    assert u[1..] == [u[1]] + ([u[2]] + ([u[3]] + []));
  }

  // ---------- Literals ----------

  /** A character that is not half a pair; zero would end the string. */
  predicate Scalar(c: nat) { 0 < c < 0x11_0000 && !(0xD800 <= c < 0xE000) }

  /** t is the literal \u of the code unit u, with any spelling of the digits. */
  predicate Names(t: seq<byte>, u: nat) {
    && |t| == 6 && t[0] == BACKSLASH && t[1] == 117
    && HexValue(t[2]).Some? && HexValue(t[3]).Some? && HexValue(t[4]).Some? && HexValue(t[5]).Some?
    && u == HexValue(t[2]).value * 0x1000 + HexValue(t[3]).value * 0x100 + HexValue(t[4]).value * 0x10
            + HexValue(t[5]).value
  }

  /** t is how UTF-16 writes character c: one literal, or the two of a surrogate pair. */
  predicate Writes(t: seq<byte>, c: nat) {
    if c < 0x1_0000 then Names(t, c)
    else |t| == 12 && Names(t[..6], 0xD800 + (c - 0x1_0000) / 0x400) && Names(t[6..], 0xDC00 + (c - 0x1_0000) % 0x400)
  }

  lemma NamesHex(t: seq<byte>, u: nat, s: seq<byte>)
    requires Names(t, u)
    ensures Hex4((t + s)[2..]) == u && u < 0x1_0000
  {
    var h := (t + s)[2..];
    assert h[0] == t[2] && h[1] == t[3] && h[2] == t[4] && h[3] == t[5];
  }

  lemma EndUnit(t: seq<byte>, u: nat, s: seq<byte>, n: nat)
    requires Names(t, u) && EndsAfter(s, n)
    ensures EndsAfter(t + s, n + 6)
  {
    EndPlain(t[5], s, n);
    EndPlain(t[4], [t[5]] + s, n + 1);
    EndPlain(t[3], [t[4]] + ([t[5]] + s), n + 2);
    EndPlain(t[2], [t[3]] + ([t[4]] + ([t[5]] + s)), n + 3);
    var r := [t[2]] + ([t[3]] + ([t[4]] + ([t[5]] + s)));
    EndEscape(117, r, n + 4);
    assert t + s == [BACKSLASH, 117] + r;
  }

  lemma EndLiteral(t: seq<byte>, c: nat, s: seq<byte>, n: nat)
    requires Writes(t, c) && EndsAfter(s, n)
    ensures EndsAfter(t + s, n + |t|)
  {
    if c < 0x1_0000 {
      EndUnit(t, c, s, n);
    } else {
      EndUnit(t[6..], 0xDC00 + (c - 0x1_0000) % 0x400, s, n);
      EndUnit(t[..6], 0xD800 + (c - 0x1_0000) / 0x400, t[6..] + s, n + 6);
      assert t + s == t[..6] + (t[6..] + s);
    }
  }

  /** The literal of a character is decoded to its UTF-8 form. */
  lemma DecodeLiteral(t: seq<byte>, c: nat, s: seq<byte>, n: nat, x: seq<byte>)
    requires Scalar(c) && Writes(t, c) && n < |s| && Decodes(s, n, x)
    ensures Decodes(t + s, n + |t|, Utf8(c) + x)
  {
    var r := t + s;
    LiteralUnit(t, c, s, n);
    assert Lock(0, 0);
    assert r[0] == t[0] && r[1] == t[1] && r[|t|..] == s;
  }

  lemma LiteralUnit(t: seq<byte>, c: nat, s: seq<byte>, n: nat)
    requires Scalar(c) && Writes(t, c) && n < |s|
    ensures Utf16(t + s, n + |t|) == Some((Utf8(c), |t|)) && t[0] == BACKSLASH && t[1] == 117
  {
    if c < 0x1_0000 {
      NamesHex(t, c, s);
    } else {
      var hi, lo := 0xD800 + (c - 0x1_0000) / 0x400, 0xDC00 + (c - 0x1_0000) % 0x400;
      PairValue(c, hi, lo);
      PairUnit(t[..6], hi, t[6..], lo, s, n);
      assert t + s == t[..6] + (t[6..] + s) && t[0] == t[..6][0] && t[1] == t[..6][1];
    }
  }

  lemma PairValue(c: nat, hi: nat, lo: nat)
    requires 0x1_0000 <= c < 0x11_0000
    requires hi == 0xD800 + (c - 0x1_0000) / 0x400 && lo == 0xDC00 + (c - 0x1_0000) % 0x400
    ensures 0xD800 <= hi <= 0xDBFF && 0xDC00 <= lo <= 0xDFFF && 0x1_0000 + hi % 0x400 * 0x400 + lo % 0x400 == c
  {
    var q, r := (c - 0x1_0000) / 0x400, (c - 0x1_0000) % 0x400;
    assert q < 0x400 && hi % 0x400 == q && lo % 0x400 == r;
  }

  lemma PairUnit(a: seq<byte>, hi: nat, b: seq<byte>, lo: nat, s: seq<byte>, n: nat)
    requires Names(a, hi) && Names(b, lo) && 0xD800 <= hi <= 0xDBFF && 0xDC00 <= lo <= 0xDFFF && n < |s|
    ensures 0x1_0000 + hi % 0x400 * 0x400 + lo % 0x400 < 0x11_0000
    ensures Utf16(a + (b + s), n + 12) == Some((Utf8(0x1_0000 + hi % 0x400 * 0x400 + lo % 0x400), 12))
  {
    var r := a + (b + s);
    assert r[8..] == (b + s)[2..] && r[6] == b[0] && r[7] == b[1];
    NamesHex(a, hi, b + s);
    NamesHex(b, lo, s);
  }

  // ---------- Strings of literals ----------

  ghost predicate AllWrite(ts: seq<seq<byte>>, cs: seq<nat>) {
    |ts| == |cs| && forall i :: 0 <= i < |cs| ==> Scalar(cs[i]) && Writes(ts[i], cs[i])
  }

  function Joined(ts: seq<seq<byte>>): seq<byte> { if ts == [] then [] else ts[0] + Joined(ts[1..]) }

  function AllUtf8(cs: seq<nat>): seq<byte>
    requires forall i :: 0 <= i < |cs| ==> Scalar(cs[i])
  {
    if cs == [] then []
    else
      assert Scalar(cs[0]);
      Utf8(cs[0]) + AllUtf8(cs[1..])
  }

  lemma {:induction false} PointsBack(cs: seq<nat>)
    requires forall i :: 0 <= i < |cs| ==> Scalar(cs[i])
    ensures ReadPoints(AllUtf8(cs)) == Some(cs) && 0 !in AllUtf8(cs)
    decreases |cs|
  {
    if cs != [] {
      var c, rest := cs[0], AllUtf8(cs[1..]);
      assert Scalar(c);
      PointsBack(cs[1..]);
      PointBack(c, rest);
      assert 0 !in Utf8(c);
      assert [c] + cs[1..] == cs;
    }
  }

  lemma {:induction false} LiteralsParse(ts: seq<seq<byte>>, cs: seq<nat>, more: seq<byte>)
    requires AllWrite(ts, cs)
    ensures var s := Joined(ts) + ([QUOTE] + more);
      EndsAfter(s, |Joined(ts)|) && Decodes(s, |Joined(ts)|, AllUtf8(cs))
    decreases |ts|
  {
    var tail := [QUOTE] + more;
    if ts == [] {
      assert Joined(ts) + tail == tail;
    } else {
      var s := Joined(ts[1..]) + tail;
      LiteralsParse(ts[1..], cs[1..], more);
      EndLiteral(ts[0], cs[0], s, |Joined(ts[1..])|);
      DecodeLiteral(ts[0], cs[0], s, |Joined(ts[1..])|, AllUtf8(cs[1..]));
      assert Joined(ts) + tail == ts[0] + s;
    }
  }

  /** A string of literals, one or a pair for each of any characters, is parsed to bytes that, read as UTF-8, are
      those characters. */
  lemma LiteralsAreCharacters(ts: seq<seq<byte>>, cs: seq<nat>, more: seq<byte>)
    requires AllWrite(ts, cs)
    ensures var r := ParseString([QUOTE] + Joined(ts) + [QUOTE] + more);
      r.Some? && r.value.1 == more && ReadPoints(r.value.0) == Some(cs)
  {
    var s := Joined(ts) + ([QUOTE] + more);
    assert [QUOTE] + Joined(ts) + [QUOTE] + more == [QUOTE] + s && ([QUOTE] + s)[1..] == s;
    LiteralsParse(ts, cs, more);
    PointsBack(cs);
    CutNone(AllUtf8(cs));
    assert Lock(0, 0);
    assert s[|Joined(ts)| + 1..] == more;
  }

  /** Half a pair alone is refused. */
  lemma HalfPairRefused(t: seq<byte>, u: nat, more: seq<byte>)
    requires Names(t, u) && 0xD800 <= u < 0xE000
    ensures ParseString([QUOTE] + t + [QUOTE] + more) == None
  {
    var tail := [QUOTE] + more;
    var s := t + tail;
    assert [QUOTE] + t + [QUOTE] + more == [QUOTE] + s && ([QUOTE] + s)[1..] == s;
    assert EndsAfter(tail, 0);
    EndUnit(t, u, tail, 0);
    NamesHex(t, u, tail);
    assert Lock(0, 0);
    assert s[0] == t[0] && s[1] == t[1];
  }
}
