/** JSON strings: print_string_ptr and parse_string. */
module JsonString {
  import opened Basics
  import opened Bytes

  const QUOTE: byte := 34
  const BACKSLASH: byte := 92

  // ---------- Printing ----------

  function HexDigit(v: byte): (d: byte)
    requires v < 16
    ensures d != QUOTE && d != BACKSLASH && HexValue(d) == Some(v as nat)
  {
    if v < 10 then v + 48 else v + 87
  }

  /** The value of a hexadecimal digit. */
  function HexValue(d: byte): (v: Option<nat>)
    ensures v.Some? ==> v.value < 16
  {
    if 48 <= d <= 57 then Some((d - 48) as nat)
    else if 65 <= d <= 70 then Some((d - 55) as nat)
    else if 97 <= d <= 102 then Some((d - 87) as nat)
    else None
  }

  /** The letter of a two-byte escape, or 0. */
  function Letter(c: byte): byte {
    if c == BACKSLASH || c == QUOTE then c
    else if c == 8 then 98
    else if c == 12 then 102
    else if c == 10 then 110
    else if c == 13 then 114
    else if c == 9 then 116
    else 0
  }

  /** One byte of a string as it is printed. */
  function Esc(c: byte): seq<byte> {
    if Letter(c) != 0 then [BACKSLASH, Letter(c)]
    else if c > 31 then [c]
    else [BACKSLASH, 117, 48, 48, HexDigit(c / 16), HexDigit(c % 16)]
  }

  function EscAll(s: seq<byte>): seq<byte> { if s == [] then [] else Esc(s[0]) + EscAll(s[1..]) }

  function Quoted(s: seq<byte>): seq<byte> { [QUOTE] + EscAll(s) + [QUOTE] }

  // ---------- Parsing ----------

  /** How many bytes stand before the closing quote. */
  function FindEnd(s: seq<byte>): (r: Option<nat>)
    ensures r.Some? ==> r.value < |s| && s[r.value] == QUOTE
  {
    if s == [] then None
    else if s[0] == QUOTE then Some(0)
    else if s[0] == BACKSLASH then
      if |s| < 2 then None else var r := FindEnd(s[2..]); if r.None? then None else Some(r.value + 2)
    else var r := FindEnd(s[1..]); if r.None? then None else Some(r.value + 1)
  }

  /** parse_hex4: four digits, or 0 if one of them is not a digit. */
  function Hex4(s: seq<byte>): (h: nat)
    requires |s| >= 4
    ensures h < 0x1_0000
  {
    var a, b, c, d := HexValue(s[0]), HexValue(s[1]), HexValue(s[2]), HexValue(s[3]);
    if a.None? || b.None? || c.None? || d.None? then 0
    else ((a.value * 16 + b.value) * 16 + c.value) * 16 + d.value
  }

  function Utf8(c: nat): seq<byte>
    requires c < 0x11_0000
  {
    if c < 0x80 then [c as byte]
    else if c < 0x800 then [(0xC0 + c / 0x40) as byte, (0x80 + c % 0x40) as byte]
    else if c < 0x1_0000 then [(0xE0 + c / 0x1000) as byte, (0x80 + c / 0x40 % 0x40) as byte, (0x80 + c % 0x40) as byte]
    else [(0xF0 + c / 0x4_0000) as byte, (0x80 + c / 0x1000 % 0x40) as byte, (0x80 + c / 0x40 % 0x40) as byte,
          (0x80 + c % 0x40) as byte]
  }

  /** utf16_literal_to_utf8: one literal or a surrogate pair, and how many bytes of input it takes. n bytes
      are left before the closing quote. */
  function Utf16(s: seq<byte>, n: nat): (r: Option<(seq<byte>, nat)>)
    requires n < |s|
    ensures r.Some? ==> r.value.1 == 6 || r.value.1 == 12
  {
    if n < 6 then None
    else
      var first := Hex4(s[2..]);
      if 0xDC00 <= first <= 0xDFFF then None
      else if 0xD800 <= first <= 0xDBFF then
        if n < 12 || s[6] != BACKSLASH || s[7] != 117 then None
        else
          var second := Hex4(s[8..]);
          if second < 0xDC00 || second > 0xDFFF then None
          else Some((Utf8(0x1_0000 + first % 0x400 * 0x400 + second % 0x400), 12))
      else Some((Utf8(first), 6))
  }

  /** What a letter after a backslash stands for. */
  function Unletter(e: byte): Option<byte> {
    if e == 98 then Some(8)
    else if e == 102 then Some(12)
    else if e == 110 then Some(10)
    else if e == 114 then Some(13)
    else if e == 116 then Some(9)
    else if e == QUOTE || e == BACKSLASH || e == 47 then Some(e)
    else None
  }

  function Prefixed(b: seq<byte>, r: Option<seq<byte>>): Option<seq<byte>> {
    if r.None? then None else Some(b + r.value)
  }

  /** The string that the next n bytes stand for; the closing quote follows them. */
  function Decode(s: seq<byte>, n: int): Option<seq<byte>>
    requires n < |s|
    decreases |s|
  {
    if n <= 0 then Some([])
    else if s[0] != BACKSLASH then Prefixed([s[0]], Decode(s[1..], n - 1))
    else if s[1] == 117 then
      match Utf16(s, n)
      case None => None
      case Some(u) => Prefixed(u.0, Decode(s[u.1..], n - u.1))
    else
      match Unletter(s[1])
      case None => None
      case Some(c) => Prefixed([c], Decode(s[2..], n - 2))
  }

  /** A C string ends before its first zero byte. */
  function Cut(s: seq<byte>): seq<byte> { if s == [] || s[0] == 0 then [] else [s[0]] + Cut(s[1..]) }

  /** parse_string: the string, and the text behind it. */
  function ParseString(s: seq<byte>): (r: Option<(seq<byte>, seq<byte>)>)
    ensures r.Some? ==> |r.value.1| < |s|
  {
    if s == [] || s[0] != QUOTE then None
    else
      var t := s[1..];
      match FindEnd(t)
      case None => None
      case Some(n) =>
        match Decode(t, n)
        case None => None
        case Some(x) => Some((Cut(x), t[n + 1..]))
  }

  // ---------- The round trip ----------

  /** The closing quote of a string stands behind n bytes. */
  ghost predicate EndsAfter(s: seq<byte>, n: nat) { forall u :: Lock(0, u) ==> FindEnd(s) == Some(n) }

  lemma EndPlain(c: byte, s: seq<byte>, n: nat)
    requires EndsAfter(s, n) && c != QUOTE && c != BACKSLASH
    ensures EndsAfter([c] + s, n + 1)
  {
    assert Lock(0, 0);
    assert ([c] + s)[1..] == s;
  }

  lemma EndEscape(c: byte, s: seq<byte>, n: nat)
    requires EndsAfter(s, n)
    ensures EndsAfter([BACKSLASH, c] + s, n + 2)
  {
    assert Lock(0, 0);
    assert ([BACKSLASH, c] + s)[2..] == s;
  }

  lemma EndByte(c: byte, s: seq<byte>, n: nat)
    requires EndsAfter(s, n)
    ensures EndsAfter(Esc(c) + s, n + |Esc(c)|)
  {
    if Letter(c) != 0 {
      EndEscape(Letter(c), s, n);
    } else if c > 31 {
      EndPlain(c, s, n);
    } else {
      var x, y := HexDigit(c / 16), HexDigit(c % 16);
      EndPlain(y, s, n);
      EndPlain(x, [y] + s, n + 1);
      EndPlain(48, [x] + ([y] + s), n + 2);
      EndPlain(48, [48] + ([x] + ([y] + s)), n + 3);
      var r := [48] + ([48] + ([x] + ([y] + s)));
      EndEscape(117, r, n + 4);
      assert Esc(c) + s == [BACKSLASH, 117] + r;
    }
  }

  lemma {:induction false} EndAll(t: seq<byte>, more: seq<byte>)
    ensures EndsAfter(EscAll(t) + ([QUOTE] + more), |EscAll(t)|)
    decreases |t|
  {
    var tail := [QUOTE] + more;
    if t == [] {
      assert EscAll(t) + tail == tail;
    } else {
      EndAll(t[1..], more);
      EndByte(t[0], EscAll(t[1..]) + tail, |EscAll(t[1..])|);
      assert EscAll(t) + tail == Esc(t[0]) + (EscAll(t[1..]) + tail);
    }
  }

  ghost predicate Decodes(s: seq<byte>, n: nat, t: seq<byte>)
    requires n < |s|
  {
    forall u :: Lock(0, u) ==> Decode(s, n) == Some(t)
  }

  lemma DecodeByte(c: byte, s: seq<byte>, n: nat, t: seq<byte>)
    requires n < |s| && Decodes(s, n, t)
    ensures Decodes(Esc(c) + s, n + |Esc(c)|, [c] + t)
  {
    assert Lock(0, 0);
    var e := Esc(c);
    var r := e + s;
    assert r[|e|..] == s && r[0] == e[0];
    if |e| == 2 { assert r[1] == e[1]; }
    if |e| == 6 { DecodeControl(c, s, n, t); }
  }

  /** A control character is printed as a literal of its code. */
  lemma DecodeControl(c: byte, s: seq<byte>, n: nat, t: seq<byte>)
    requires n < |s| && Decode(s, n) == Some(t) && Letter(c) == 0 && c <= 31
    ensures Decode(Esc(c) + s, n + 6) == Some([c] + t)
  {
    var r := Esc(c) + s;
    assert r[6..] == s && r[0] == BACKSLASH && r[1] == 117;
    var h := r[2..];
    assert h[0] == 48 && h[1] == 48 && h[2] == HexDigit(c / 16) && h[3] == HexDigit(c % 16);
    assert Hex4(h) == (c / 16) as nat * 16 + (c % 16) as nat;
    assert Hex4(h) == c as nat;
    assert Utf16(r, n + 6) == Some(([c], 6));
  }

  lemma {:induction false} DecodeAll(t: seq<byte>, more: seq<byte>)
    ensures Decodes(EscAll(t) + ([QUOTE] + more), |EscAll(t)|, t)
    decreases |t|
  {
    var tail := [QUOTE] + more;
    if t == [] {
      assert EscAll(t) + tail == tail;
    } else {
      DecodeAll(t[1..], more);
      DecodeByte(t[0], EscAll(t[1..]) + tail, |EscAll(t[1..])|, t[1..]);
      assert EscAll(t) + tail == Esc(t[0]) + (EscAll(t[1..]) + tail);
      assert [t[0]] + t[1..] == t;
    }
  }

  lemma {:induction false} CutNone(s: seq<byte>)
    requires 0 !in s
    ensures Cut(s) == s
  {
    if s != [] { CutNone(s[1..]); }
  }

  /** A printed string is parsed as the string. */
  lemma StringRoundTrip(t: seq<byte>, more: seq<byte>)
    requires 0 !in t
    ensures ParseString(Quoted(t) + more) == Some((t, more))
  {
    var s := EscAll(t) + ([QUOTE] + more);
    assert Quoted(t) + more == [QUOTE] + s && ([QUOTE] + s)[1..] == s;
    EndAll(t, more);
    DecodeAll(t, more);
    CutNone(t);
    assert Lock(0, 0);
    assert s[|EscAll(t)| + 1..] == more;
  }
}
