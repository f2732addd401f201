/** Quoting and splitting of strings: sdscatrepr and sdssplitargs, sdssplitlen and sdsjoinsds. */
module Sds {
  import opened Basics
  import opened Bytes

  const BELL: byte := 7
  const BACKSPACE: byte := 8
  const TAB: byte := 9
  const NEWLINE: byte := 10
  const RETURN: byte := 13
  const SPACE: byte := 32
  const QUOTE: byte := 34
  const APOSTROPHE: byte := 39
  const BACKSLASH: byte := 92

  // ---------- Quoting ----------

  predicate IsSpace(b: byte) { b == SPACE || TAB <= b <= RETURN }

  predicate IsPrint(b: byte) { 32 <= b < 127 }

  predicate IsHex(b: byte) { 48 <= b <= 57 || 97 <= b <= 102 || 65 <= b <= 70 }

  function HexValue(b: byte): (v: byte)
    ensures v < 16
  {
    if 48 <= b <= 57 then b - 48 else if 97 <= b <= 102 then b - 87 else if 65 <= b <= 70 then b - 55 else 0
  }

  function HexDigit(v: byte): (d: byte)
    requires v < 16
    ensures IsHex(d) && HexValue(d) == v && d != 0
  {
    if v < 10 then v + 48 else v + 87
  }

  /** One byte as it appears between quotes. */
  function Escape(b: byte): seq<byte> {
    if b == BACKSLASH || b == QUOTE then [BACKSLASH, b]
    else if b == NEWLINE then [BACKSLASH, 110]
    else if b == RETURN then [BACKSLASH, 114]
    else if b == TAB then [BACKSLASH, 116]
    else if b == BELL then [BACKSLASH, 97]
    else if b == BACKSPACE then [BACKSLASH, 98]
    else if IsPrint(b) then [b]
    else [BACKSLASH, 120, HexDigit(b / 16), HexDigit(b % 16)]
  }

  function Escaped(s: seq<byte>): seq<byte> {
    if s == [] then [] else Escape(s[0]) + Escaped(s[1..])
  }

  /** A string in quotes. */
  function Repr(s: seq<byte>): seq<byte> { [QUOTE] + Escaped(s) + [QUOTE] }

  lemma {:induction false} EscapedConcat(a: seq<byte>, b: seq<byte>)
    ensures Escaped(a + b) == Escaped(a) + Escaped(b)
  {
    if a == [] {
      assert a + b == b;
    } else {
      assert (a + b)[1..] == a[1..] + b;
      EscapedConcat(a[1..], b);
    }
  }

  lemma EscapedMore(s: seq<byte>, i: nat)
    requires i < |s|
    ensures Escaped(s[..i + 1]) == Escaped(s[..i]) + Escape(s[i])
  {
    assert s[..i + 1] == s[..i] + [s[i]];
    EscapedConcat(s[..i], [s[i]]);
    assert Escaped([s[i]]) == Escape(s[i]) + [];
  }

  method CatByte(s: seq<byte>, c: byte) returns (r: seq<byte>)
    ensures r == s + Escape(c)
  {
    if c == BACKSLASH || c == QUOTE {
      r := s + [BACKSLASH, c];
    } else if c == NEWLINE {
      r := s + [BACKSLASH, 110];
    } else if c == RETURN {
      r := s + [BACKSLASH, 114];
    } else if c == TAB {
      r := s + [BACKSLASH, 116];
    } else if c == BELL {
      r := s + [BACKSLASH, 97];
    } else if c == BACKSPACE {
      r := s + [BACKSLASH, 98];
    } else if IsPrint(c) {
      r := s + [c];
    } else {
      r := s + [BACKSLASH, 120, HexDigit(c / 16), HexDigit(c % 16)];
    }
  }

  /** sdscatrepr. */
  method CatRepr(s: seq<byte>, p: seq<byte>) returns (r: seq<byte>)
    ensures r == s + Repr(p)
  {
    r := s + [QUOTE];
    var i := 0;
    while i < |p|
      invariant 0 <= i <= |p| && r == s + [QUOTE] + Escaped(p[..i])
    {
      EscapedMore(p, i);
      r := CatByte(r, p[i]);
      i := i + 1;
    }
    assert p[..|p|] == p;
    r := r + [QUOTE];
  }

  // ---------- Splitting a line into arguments ----------

  datatype Mode = Plain | Quoted | Single

  /** What one round of the scan of an argument leads to: `rest` is the line from where it goes on. */
  datatype Next = Go(rest: seq<byte>, mode: Mode, cur: seq<byte>) | Done(cur: seq<byte>, rest: seq<byte>) | Fail

  /** The byte at p; a string ends with a zero byte. */
  function At(line: seq<byte>, p: nat): byte { if p < |line| then line[p] else 0 }

  /** What a letter after a backslash stands for. */
  function Unescape(c: byte): byte {
    if c == 110 then NEWLINE
    else if c == 114 then RETURN
    else if c == 116 then TAB
    else if c == 98 then BACKSPACE
    else if c == 97 then BELL
    else c
  }

  predicate Ends(rest: seq<byte>) { At(rest, 0) == 0 || IsSpace(At(rest, 0)) }

  /** A closing quote; a blank or the end must follow. */
  function Close(rest: seq<byte>, cur: seq<byte>): Next
    requires rest != []
  {
    if Ends(rest[1..]) then Done(cur, rest[1..]) else Fail
  }

  /** One round of the loop that gets an argument. */
  function Step(line: seq<byte>, mode: Mode, cur: seq<byte>): (n: Next)
    ensures (n.Go? ==> |n.rest| < |line|) && (n.Done? ==> |n.rest| <= |line|)
  {
    var c := At(line, 0);
    match mode
    case Quoted =>
      if c == BACKSLASH && At(line, 1) == 120 && IsHex(At(line, 2)) && IsHex(At(line, 3)) then
        Go(line[4..], Quoted, cur + [HexValue(At(line, 2)) * 16 + HexValue(At(line, 3))])
      else if c == BACKSLASH && At(line, 1) != 0 then Go(line[2..], Quoted, cur + [Unescape(At(line, 1))])
      else if c == QUOTE then Close(line, cur)
      else if c == 0 then Fail
      else Go(line[1..], Quoted, cur + [c])
    case Single =>
      if c == BACKSLASH && At(line, 1) == APOSTROPHE then Go(line[2..], Single, cur + [APOSTROPHE])
      else if c == APOSTROPHE then Close(line, cur)
      else if c == 0 then Fail
      else Go(line[1..], Single, cur + [c])
    case Plain =>
      if c == 0 then Done(cur, line)
      else if c == SPACE || c == NEWLINE || c == RETURN || c == TAB then Done(cur, line[1..])
      else if c == QUOTE then Go(line[1..], Quoted, cur)
      else if c == APOSTROPHE then Go(line[1..], Single, cur)
      else Go(line[1..], Plain, cur + [c])
  }

  /** The argument at the start of the line, of which `cur` was read already, and the line behind it. */
  function Token(line: seq<byte>, mode: Mode, cur: seq<byte>): (r: Option<(seq<byte>, seq<byte>)>)
    ensures r.Some? ==> |r.value.1| <= |line|
    decreases |line|
  {
    match Step(line, mode, cur)
    case Go(rest, mode', cur') => Token(rest, mode', cur')
    case Done(t, rest) => Some((t, rest))
    case Fail => None
  }

  function SkipBlanks(line: seq<byte>): (r: seq<byte>)
    ensures |r| <= |line| && (r != [] ==> !IsSpace(r[0]) && r[0] in line)
  {
    if line != [] && IsSpace(line[0]) then SkipBlanks(line[1..]) else line
  }

  /** The arguments of a line; it ends at the first zero byte, if there is one. */
  function Arguments(line: seq<byte>): Option<seq<seq<byte>>>
    decreases |line|
  {
    var start := SkipBlanks(line);
    if At(start, 0) == 0 then Some([])
    else
      match Token(start, Plain, [])
      case None => None
      case Some(t) =>
        match Arguments(t.1)
        case None => None
        case Some(ts) => Some([t.0] + ts)
  }

  lemma Shifted(line: seq<byte>, p: nat, k: nat)
    requires p <= |line|
    ensures At(line[p..], k) == At(line, p + k)
    ensures p + k <= |line| ==> line[p..][k..] == line[p + k..]
  {
  }

  lemma ShiftedAll(line: seq<byte>, p: nat)
    requires p <= |line|
    ensures forall k: nat :: k <= 4 ==> At(line[p..], k) == At(line, p + k)
    ensures forall k: nat :: k <= 4 && p + k <= |line| ==> line[p..][k..] == line[p + k..]
  {
    forall k: nat | k <= 4 ensures At(line[p..], k) == At(line, p + k) { Shifted(line, p, k); }
    forall k: nat | k <= 4 && p + k <= |line| ensures line[p..][k..] == line[p + k..] { Shifted(line, p, k); }
  }

  /** What a round of the loop that gets an argument comes to: !ok is an error, `done` ends the argument. */
  function Came(line: seq<byte>, ok: bool, done: bool, mode: Mode, cur: seq<byte>, p: nat): Next
    requires ok ==> p <= |line|
  {
    if !ok then Fail else if done then Done(cur, line[p..]) else Go(line[p..], mode, cur)
  }

  /** A round between double quotes, as code. */
  method QuotedRound(line: seq<byte>, p0: nat, cur0: seq<byte>) returns (ok: bool, done: bool, cur: seq<byte>, p: nat)
    requires p0 <= |line|
    ensures ok ==> p <= |line| && (done || p > p0)
    ensures Step(line[p0..], Quoted, cur0) == Came(line, ok, done, Quoted, cur, p)
  {
    ShiftedAll(line, p0);
    ok, done, cur, p := true, false, cur0, p0;
    var c := At(line, p);
    if c == BACKSLASH && At(line, p + 1) == 120 && IsHex(At(line, p + 2)) && IsHex(At(line, p + 3)) {
      cur := cur + [HexValue(At(line, p + 2)) * 16 + HexValue(At(line, p + 3))];
      p := p + 3;
    } else if c == BACKSLASH && At(line, p + 1) != 0 {
      p := p + 1;
      cur := cur + [Unescape(At(line, p))];
    } else if c == QUOTE {
      if At(line, p + 1) != 0 && !IsSpace(At(line, p + 1)) { ok := false; }
      done := true;
    } else if c == 0 {
      ok := false;
    } else {
      cur := cur + [c];
    }
    if At(line, p) != 0 { p := p + 1; }
  }

  /** A round between single quotes, as code. */
  method SingleRound(line: seq<byte>, p0: nat, cur0: seq<byte>) returns (ok: bool, done: bool, cur: seq<byte>, p: nat)
    requires p0 <= |line|
    ensures ok ==> p <= |line| && (done || p > p0)
    ensures Step(line[p0..], Single, cur0) == Came(line, ok, done, Single, cur, p)
  {
    ShiftedAll(line, p0);
    ok, done, cur, p := true, false, cur0, p0;
    var c := At(line, p);
    if c == BACKSLASH && At(line, p + 1) == APOSTROPHE {
      p := p + 1;
      cur := cur + [APOSTROPHE];
    } else if c == APOSTROPHE {
      if At(line, p + 1) != 0 && !IsSpace(At(line, p + 1)) { ok := false; }
      done := true;
    } else if c == 0 {
      ok := false;
    } else {
      cur := cur + [c];
    }
    if At(line, p) != 0 { p := p + 1; }
  }

  /** A round outside quotes, as code. */
  method PlainRound(line: seq<byte>, p0: nat, cur0: seq<byte>)
    returns (done: bool, mode: Mode, cur: seq<byte>, p: nat)
    requires p0 <= |line|
    ensures p <= |line| && (done || p > p0)
    ensures Step(line[p0..], Plain, cur0) == Came(line, true, done, mode, cur, p)
  {
    ShiftedAll(line, p0);
    done, mode, cur, p := false, Plain, cur0, p0;
    var c := At(line, p);
    if c == SPACE || c == NEWLINE || c == RETURN || c == TAB || c == 0 {
      done := true;
    } else if c == QUOTE {
      mode := Quoted;
    } else if c == APOSTROPHE {
      mode := Single;
    } else {
      cur := cur + [c];
    }
    if At(line, p) != 0 { p := p + 1; }
  }

  /** The loop that gets an argument. */
  method GetToken(line: seq<byte>, start: nat) returns (ok: bool, cur: seq<byte>, p: nat)
    requires start <= |line|
    ensures ok ==> p <= |line|
    ensures Token(line[start..], Plain, []) == if ok then Some((cur, line[p..])) else None
  {
    var mode, done := Plain, false;
    ok, cur, p := true, [], start;
    while !done
      invariant ok && p <= |line|
      invariant Token(line[start..], Plain, []) == if done then Some((cur, line[p..])) else Token(line[p..], mode, cur)
      decreases !done, |line| - p
    {
      match mode {
        case Quoted => ok, done, cur, p := QuotedRound(line, p, cur);
        case Single => ok, done, cur, p := SingleRound(line, p, cur);
        case Plain => done, mode, cur, p := PlainRound(line, p, cur);
      }
      if !ok { return; }
    }
  }

  function Prepend(v: seq<seq<byte>>, r: Option<seq<seq<byte>>>): Option<seq<seq<byte>>> {
    if r.None? then None else Some(v + r.value)
  }

  lemma PrependNone(v: seq<seq<byte>>, r: Option<seq<seq<byte>>>)
    ensures Prepend([], r) == r && Prepend(v, Some([])) == Some(v)
  {
    assert v + [] == v;
    if r.Some? { assert [] + r.value == r.value; }
  }

  lemma PrependMore(v: seq<seq<byte>>, x: seq<byte>, r: Option<seq<seq<byte>>>)
    ensures Prepend(v, Prepend([x], r)) == Prepend(v + [x], r)
  {
    if r.Some? { assert v + ([x] + r.value) == v + [x] + r.value; }
  }

  /** sdssplitargs. */
  method SplitArgs(line: seq<byte>) returns (r: Option<seq<seq<byte>>>)
    ensures r == Arguments(line)
  {
    var p, vector := 0, [];
    PrependNone(vector, Arguments(line));
    assert line[0..] == line;
    while true
      invariant p <= |line| && Arguments(line) == Prepend(vector, Arguments(line[p..]))
      decreases |line| - p
    {
      ghost var start := SkipBlanks(line[p..]);
      while p < |line| && IsSpace(line[p])
        invariant p <= |line| && SkipBlanks(line[p..]) == start
      {
        assert line[p..][1..] == line[p + 1..];
        p := p + 1;
      }
      assert start == line[p..];
      Shifted(line, p, 0);
      PrependNone(vector, Some([]));
      if At(line, p) == 0 { return Some(vector); }
      var ok, cur, next := GetToken(line, p);
      if !ok { return None; }
      PrependMore(vector, cur, Arguments(line[next..]));
      TokenAdvances(line[p..]);
      vector, p := vector + [cur], next;
    }
  }

  lemma TokenAdvances(line: seq<byte>)
    requires At(line, 0) != 0
    ensures Token(line, Plain, []).Some? ==> |Token(line, Plain, []).value.1| < |line|
  {
  }

  // ---------- The round trip ----------

  /** The escape of a byte is read as that byte. */
  lemma ReadEscape(b: byte, more: seq<byte>, cur: seq<byte>)
    ensures Step(Escape(b) + more, Quoted, cur) == Go(more, Quoted, cur + [b])
  {
    var e := Escape(b);
    var line := e + more;
    assert line[|e|..] == more;
    assert At(line, 0) == e[0];
    if |e| > 1 { assert At(line, 1) == e[1]; }
    if |e| > 2 { assert At(line, 2) == e[2] && At(line, 3) == e[3]; }
  }

  /** The argument at the start of the line is t, and `rest` is behind it. */
  ghost predicate Reads(line: seq<byte>, mode: Mode, cur: seq<byte>, t: seq<byte>, rest: seq<byte>) {
    forall u :: Lock(0, u) ==> Token(line, mode, cur) == Some((t, rest))
  }

  lemma ReadsOn(line: seq<byte>, mode: Mode, cur: seq<byte>, line': seq<byte>, mode': Mode, cur': seq<byte>,
                t: seq<byte>, rest: seq<byte>)
    requires Step(line, mode, cur) == Go(line', mode', cur') && Reads(line', mode', cur', t, rest)
    ensures Reads(line, mode, cur, t, rest)
  {
    assert Lock(0, 0);
  }

  lemma ReadsEnd(more: seq<byte>, cur: seq<byte>)
    requires Ends(more)
    ensures Reads([QUOTE] + more, Quoted, cur, cur, more)
  {
    assert ([QUOTE] + more)[1..] == more;
  }

  lemma ReadsByte(b: byte, line: seq<byte>, cur: seq<byte>, t: seq<byte>, rest: seq<byte>)
    requires Reads(line, Quoted, cur + [b], t, rest)
    ensures Reads(Escape(b) + line, Quoted, cur, t, rest)
  {
    ReadEscape(b, line, cur);
    ReadsOn(Escape(b) + line, Quoted, cur, line, Quoted, cur + [b], t, rest);
  }

  lemma {:induction false} ReadEscaped(s: seq<byte>, more: seq<byte>, cur: seq<byte>)
    requires Ends(more)
    ensures Reads(Escaped(s) + ([QUOTE] + more), Quoted, cur, cur + s, more)
    decreases |s|
  {
    var tail := [QUOTE] + more;
    if s == [] {
      assert Escaped(s) + tail == tail && cur + s == cur;
      ReadsEnd(more, cur);
    } else {
      var b, r := s[0], Escaped(s[1..]);
      Assoc(Escape(b), r, tail);
      Assoc(cur, [b], s[1..]);
      assert [b] + s[1..] == s;
      ReadEscaped(s[1..], more, cur + [b]);
      ReadsByte(b, r + tail, cur, cur + s, more);
    }
  }

  /** A quoted string is read as the string. */
  lemma ReadRepr(s: seq<byte>, more: seq<byte>)
    requires Ends(more)
    ensures Reads(Repr(s) + more, Plain, [], s, more)
  {
    var r := Escaped(s) + ([QUOTE] + more);
    assert Repr(s) + more == [QUOTE] + r && ([QUOTE] + r)[1..] == r && [] + s == s;
    ReadEscaped(s, more, []);
    ReadsOn([QUOTE] + r, Plain, [], r, Quoted, [], s, more);
  }

  /** sdsjoinsds. */
  function Join(ts: seq<seq<byte>>, sep: seq<byte>): seq<byte> {
    if ts == [] then [] else if |ts| == 1 then ts[0] else ts[0] + (sep + Join(ts[1..], sep))
  }

  function Reprs(ts: seq<seq<byte>>): (r: seq<seq<byte>>)
    ensures |r| == |ts|
  {
    if ts == [] then [] else [Repr(ts[0])] + Reprs(ts[1..])
  }

  ghost predicate Splits(line: seq<byte>, ts: seq<seq<byte>>) {
    forall u :: Lock(0, u) ==> Arguments(line) == Some(ts)
  }

  lemma SplitsOn(line: seq<byte>, t: seq<byte>, rest: seq<byte>, ts: seq<seq<byte>>)
    requires line != [] && line[0] != 0 && !IsSpace(line[0]) && Reads(line, Plain, [], t, rest) && Splits(rest, ts)
    ensures Splits(line, [t] + ts)
  {
    assert Lock(0, 0);
    assert SkipBlanks(line) == line;
  }

  lemma SplitsBlank(line: seq<byte>, ts: seq<seq<byte>>)
    requires Splits(line, ts)
    ensures Splits([SPACE] + line, ts)
  {
    assert Lock(0, 0);
    assert ([SPACE] + line)[1..] == line;
  }

  lemma {:induction false} SplitsReprs(ts: seq<seq<byte>>)
    ensures Splits(Join(Reprs(ts), [SPACE]), ts)
    decreases |ts|
  {
    if ts != [] {
      var x, more := Repr(ts[0]), Reprs(ts[1..]);
      assert Reprs(ts)[1..] == more && Reprs(ts)[0] == x;
      SplitsReprs(ts[1..]);
      var rest := if |ts| == 1 then [] else [SPACE] + Join(more, [SPACE]);
      if |ts| == 1 {
        assert x + rest == x && ts[1..] == [];
      } else {
        SplitsBlank(Join(more, [SPACE]), ts[1..]);
      }
      assert Join(Reprs(ts), [SPACE]) == x + rest && [ts[0]] + ts[1..] == ts;
      ReadRepr(ts[0], rest);
      SplitsOn(x + rest, ts[0], rest, ts[1..]);
    }
  }

  /** Any list of byte strings, quoted and joined with blanks, is split into the same list. */
  lemma QuotingRoundTrip(ts: seq<seq<byte>>)
    ensures Arguments(Join(Reprs(ts), [SPACE])) == Some(ts)
  {
    SplitsReprs(ts);
    assert Lock(0, 0);
  }

  ghost predicate AllPrint(s: seq<byte>) {
    forall b :: b in s ==> IsPrint(b)
  }

  /** The line is printable whatever bytes the strings hold; so it has no zero byte before its end, and is the
      whole of a zero-terminated string. */
  lemma {:induction false} QuotedLineIsString(ts: seq<seq<byte>>)
    ensures AllPrint(Join(Reprs(ts), [SPACE])) && 0 !in Join(Reprs(ts), [SPACE])
    decreases |ts|
  {
    if ts != [] {
      EscapedPrints(ts[0]);
      assert Reprs(ts)[1..] == Reprs(ts[1..]);
      QuotedLineIsString(ts[1..]);
    }
  }

  lemma {:induction false} EscapedPrints(s: seq<byte>)
    ensures AllPrint(Escaped(s))
  {
    if s != [] { EscapedPrints(s[1..]); }
  }

  /** sdsjoinsds, as code. */
  method JoinSds(ts: seq<seq<byte>>, sep: seq<byte>) returns (join: seq<byte>)
    ensures join == Join(ts, sep)
  {
    join := [];
    var j := 0;
    assert ts[0..] == ts && join + Join(ts, sep) == Join(ts, sep);
    while j < |ts|
      invariant 0 <= j <= |ts| && join + Join(ts[j..], sep) == Join(ts, sep)
    {
      ghost var was, more := join, Join(ts[j + 1..], sep);
      assert ts[j..][1..] == ts[j + 1..];
      join := join + ts[j];
      if j != |ts| - 1 {
        join := join + sep;
        assert was + (ts[j] + (sep + more)) == join + more;
      } else {
        assert ts[j + 1..] == [];
        assert join + [] == join;
      }
      j := j + 1;
    }
    assert ts[|ts|..] == [] && join + [] == join;
  }

  // ---------- Splitting at a separator ----------

  /** The separator stands at position j. */
  predicate Occurs(s: seq<byte>, sep: seq<byte>, j: nat) { j + |sep| <= |s| && s[j..j + |sep|] == sep }

  /** The tokens from `start` on, when the separator does not occur between `start` and j. */
  function Tokens(s: seq<byte>, sep: seq<byte>, start: nat, j: nat): seq<seq<byte>>
    requires start <= j <= |s| && sep != []
    decreases |s| - j
  {
    if j + |sep| > |s| then [s[start..]]
    else if Occurs(s, sep, j) then [s[start..j]] + Tokens(s, sep, j + |sep|, j + |sep|)
    else Tokens(s, sep, start, j + 1)
  }

  /** sdssplitlen; an empty separator is refused, an empty string has no tokens. */
  function SplitAt(s: seq<byte>, sep: seq<byte>): Option<seq<seq<byte>>> {
    if sep == [] then None else if s == [] then Some([]) else Some(Tokens(s, sep, 0, 0))
  }

  method SplitLen(s: seq<byte>, sep: seq<byte>) returns (r: Option<seq<seq<byte>>>)
    ensures r == SplitAt(s, sep)
  {
    if |sep| < 1 { return None; }
    if |s| == 0 { return Some([]); }
    var tokens, start, j := [], 0, 0;
    while j < |s| - (|sep| - 1)
      invariant 0 <= start <= j <= |s| && tokens + Tokens(s, sep, start, j) == Tokens(s, sep, 0, 0)
    {
      if s[j..j + |sep|] == sep {
        ghost var k := j + |sep|;
        ghost var rest := Tokens(s, sep, k, k);
        assert Tokens(s, sep, start, j) == [s[start..j]] + rest;
        Assoc(tokens, [s[start..j]], rest);
        tokens := tokens + [s[start..j]];
        start := j + |sep|;
        j := j + |sep| - 1;
      } else {
        assert Tokens(s, sep, start, j) == Tokens(s, sep, start, j + 1);
      }
      j := j + 1;
    }
    r := Some(tokens + [s[start..]]);
  }

  /** Joining the tokens with the separator gives the string back. */
  lemma {:induction false} JoinTokens(s: seq<byte>, sep: seq<byte>, start: nat, j: nat)
    requires start <= j <= |s| && sep != []
    ensures Tokens(s, sep, start, j) != [] && Join(Tokens(s, sep, start, j), sep) == s[start..]
    decreases |s| - j
  {
    if j + |sep| <= |s| {
      if Occurs(s, sep, j) {
        var k := j + |sep|;
        JoinTokens(s, sep, k, k);
        var rest := Tokens(s, sep, k, k);
        assert ([s[start..j]] + rest)[1..] == rest;
        assert s[start..j] + (sep + s[k..]) == s[start..] by { SplitThree(s, start, j, k, sep); }
      } else {
        JoinTokens(s, sep, start, j + 1);
      }
    }
  }

  lemma SplitThree(s: seq<byte>, i: nat, j: nat, k: nat, sep: seq<byte>)
    requires i <= j <= k <= |s| && s[j..k] == sep
    ensures s[i..j] + (sep + s[k..]) == s[i..]
  {
    assert s[j..] == s[j..k] + s[k..];
    assert s[i..] == s[i..j] + s[j..];
  }

  /** sdsjoinsds undoes sdssplitlen, for every string and every separator that is not empty. */
  lemma SplitRoundTrip(s: seq<byte>, sep: seq<byte>)
    requires sep != []
    ensures SplitAt(s, sep).Some? && Join(SplitAt(s, sep).value, sep) == s
  {
    if s != [] {
      JoinTokens(s, sep, 0, 0);
      assert s[0..] == s;
    }
  }

  ghost predicate Free(t: seq<byte>, sep: seq<byte>) { forall i :: 0 <= i <= |t| ==> !Occurs(t, sep, i) }

  /** No token contains the separator. */
  lemma {:induction false} TokensFree(s: seq<byte>, sep: seq<byte>, start: nat, j: nat)
    requires start <= j <= |s| && sep != [] && forall i :: start <= i < j ==> !Occurs(s, sep, i)
    ensures forall k :: 0 <= k < |Tokens(s, sep, start, j)| ==> Free(Tokens(s, sep, start, j)[k], sep)
    decreases |s| - j
  {
    if j + |sep| > |s| {
      PartFree(s, sep, start, |s|, j);
      assert s[start..] == s[start..|s|];
    } else if Occurs(s, sep, j) {
      PartFree(s, sep, start, j, j);
      TokensFree(s, sep, j + |sep|, j + |sep|);
    } else {
      TokensFree(s, sep, start, j + 1);
    }
  }

  lemma PartFree(s: seq<byte>, sep: seq<byte>, start: nat, end: nat, j: nat)
    requires start <= end <= |s| && sep != [] && end < j + |sep| && forall i :: start <= i < j ==> !Occurs(s, sep, i)
    ensures Free(s[start..end], sep)
  {
    forall i | 0 <= i <= end - start ensures !Occurs(s[start..end], sep, i) { OccursInPart(s, sep, start, end, i); }
  }

  lemma OccursInPart(s: seq<byte>, sep: seq<byte>, start: nat, end: nat, i: nat)
    requires start <= end <= |s|
    ensures Occurs(s[start..end], sep, i) ==> start + i + |sep| <= end && Occurs(s, sep, start + i)
  {
    var t := s[start..end];
    if Occurs(t, sep, i) {
      var j, k := start + i, start + i + |sep|;
      assert t[i..i + |sep|] == s[j..k];
    }
  }
}
