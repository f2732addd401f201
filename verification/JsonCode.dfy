/** The JSON printer and parser as code: buffers, offsets and loops. */
module JsonCode {
  import opened Basics
  import opened Bytes
  import opened JsonString
  import opened JsonText

  // ---------- print_string_ptr ----------

  /** The bytes an escape needs beyond the one it stands for. */
  function Extra(c: byte): nat { if Letter(c) != 0 then 1 else if c < 32 then 5 else 0 }

  function ExtraAll(s: seq<byte>): nat { if s == [] then 0 else ExtraAll(s[..|s| - 1]) + Extra(s[|s| - 1]) }

  lemma {:induction false} EscConcat(a: seq<byte>, b: seq<byte>)
    ensures EscAll(a + b) == EscAll(a) + EscAll(b)
  {
    if a == [] {
      assert a + b == b;
    } else {
      assert (a + b)[1..] == a[1..] + b;
      EscConcat(a[1..], b);
    }
  }

  lemma EscMore(s: seq<byte>, i: nat)
    requires i < |s|
    ensures EscAll(s[..i + 1]) == EscAll(s[..i]) + Esc(s[i])
  {
    assert s[..i + 1] == s[..i] + [s[i]];
    EscConcat(s[..i], [s[i]]);
    assert EscAll([s[i]]) == Esc(s[i]) + [];
  }

  /** The count made beforehand is the number of bytes written. */
  lemma {:induction false} CountIsLength(s: seq<byte>)
    ensures |s| + ExtraAll(s) == |EscAll(s)|
    decreases |s|
  {
    if s != [] {
      CountIsLength(s[..|s| - 1]);
      EscMore(s, |s| - 1);
      assert s[..|s|] == s;
    }
  }

  lemma {:induction false} EscPrefix(s: seq<byte>, i: nat)
    requires i <= |s|
    ensures |EscAll(s[..i])| <= |EscAll(s)|
  {
    EscConcat(s[..i], s[i..]);
    assert s == s[..i] + s[i..];
  }

  /** How many bytes the escapes of the string need beyond its length. */
  method CountExtra(s: seq<byte>) returns (extra: nat)
    ensures |s| + extra == |EscAll(s)|
  {
    var i := 0;
    extra := 0;
    while i < |s|
      invariant 0 <= i <= |s| && extra == ExtraAll(s[..i])
    {
      assert s[..i + 1][..i] == s[..i];
      if Letter(s[i]) != 0 {
        extra := extra + 1;
      } else if s[i] < 32 {
        extra := extra + 5;
      }
      i := i + 1;
    }
    assert s[..|s|] == s;
    CountIsLength(s);
  }

  /** The string is copied, with its escapes, from position `start` on. */
  method Fill(out: array<byte>, start: nat, s: seq<byte>)
    requires start + |EscAll(s)| <= out.Length
    modifies out
    ensures out[..start + |EscAll(s)|] == old(out[..start]) + EscAll(s)
  {
    var i, p := 0, start;
    while i < |s|
      invariant 0 <= i <= |s| && p == start + |EscAll(s[..i])| <= start + |EscAll(s)|
      invariant out[..p] == old(out[..start]) + EscAll(s[..i])
    {
      EscMore(s, i);
      EscPrefix(s, i + 1);
      ghost var written := out[..p];
      var q := WriteByte(out, p, s[i]);
      assert out[..p] == written && out[..q] == out[..p] + out[p..q];
      Assoc(old(out[..start]), EscAll(s[..i]), Esc(s[i]));
      i, p := i + 1, q;
    }
    assert s[..|s|] == s;
  }

  method WriteByte(out: array<byte>, p: nat, c: byte) returns (q: nat)
    requires p + |Esc(c)| <= out.Length
    modifies out
    ensures q == p + |Esc(c)| && out[p..q] == Esc(c) && forall i :: 0 <= i < p ==> out[i] == old(out[i])
  {
    if c > 31 && c != QUOTE && c != BACKSLASH {
      out[p] := c;
      q := p + 1;
    } else {
      out[p] := BACKSLASH;
      if Letter(c) != 0 {
        out[p + 1] := Letter(c);
        q := p + 2;
      } else {
        out[p + 1], out[p + 2], out[p + 3] := 117, 48, 48;
        out[p + 4], out[p + 5] := HexDigit(c / 16), HexDigit(c % 16);
        q := p + 6;
      }
    }
  }

  // ---------- The parser ----------

  /** A list of elements followed by others. */
  function ChainItems(vs: seq<Json>, tail: Items): Items
  {
    if vs == [] then tail else ChainItems(vs[..|vs| - 1], Item(vs[|vs| - 1], tail))
  }

  function ChainMembers(ms: seq<(seq<byte>, Json)>, tail: Members): Members {
    if ms == [] then tail else ChainMembers(ms[..|ms| - 1], Member(ms[|ms| - 1].0, ms[|ms| - 1].1, tail))
  }

  function ThenItems(vs: seq<Json>, r: Option<(Items, seq<byte>)>): Option<(Items, seq<byte>)> {
    if r.None? then None else Some((ChainItems(vs, r.value.0), r.value.1))
  }

  function ThenMembers(ms: seq<(seq<byte>, Json)>, r: Option<(Members, seq<byte>)>): Option<(Members, seq<byte>)> {
    if r.None? then None else Some((ChainMembers(ms, r.value.0), r.value.1))
  }

  function Later(k: nat, r: Option<nat>): Option<nat> { if r.None? then None else Some(r.value + k) }

  /** parse_buffer; the text comes without its terminating zero. */
  class Parser {
    const text: seq<byte>
    var offset: nat
    var depth: nat

    ghost predicate Valid()
      reads this
    {
      offset <= |text|
    }

    ghost function Rest(): seq<byte>
      requires Valid()
      reads this
    {
      text[offset..]
    }

    constructor (text: seq<byte>)
      ensures Valid() && this.text == text && offset == 0 && depth == 0
    {
      this.text, offset, depth := text, 0, 0;
    }

    predicate Here(c: byte)
      reads this
    {
      offset < |text| && text[offset] == c
    }

    /** buffer_skip_whitespace. */
    method SkipWhitespace()
      requires Valid()
      modifies this`offset
      ensures Valid() && offset >= old(offset) && Skipped(text, old(offset), offset)
    {
      while offset < |text| && text[offset] <= 32
        invariant Valid() && offset >= old(offset) && SameSkip(text, old(offset), offset)
      {
        SkipStep(text, old(offset), offset);
        offset := offset + 1;
      }
      SkipDone(text, old(offset), offset);
    }

    /** The end of a string that starts at `start`. */
    method FindQuote(start: nat) returns (end: Option<nat>)
      requires start <= |text|
      ensures end.Some? ==> start <= end.value < |text| && text[end.value] == QUOTE
      ensures EndIs(text, start, end)
    {
      var e := start;
      while e < |text| && text[e] != QUOTE
        invariant start <= e <= |text| && Searched(text, start, e)
      {
        FindStep(text, start, e);
        if text[e] == BACKSLASH {
          if e + 1 >= |text| { return None; }
          e := e + 1;
        }
        e := e + 1;
      }
      if e >= |text| {
        FindNone(text, start, e);
        return None;
      }
      FindHere(text, start, e);
      end := Some(e);
    }

    /** The bytes between the quotes are decoded. */
    method Unquote(start: nat, end: nat) returns (r: Option<seq<byte>>)
      requires start <= end < |text|
      ensures DecodeIs(text, start, end, r)
    {
      var p, out := start, [];
      UnquoteStart(text, start, end);
      while p < end
        invariant start <= p <= |text| && Unquoting(text, start, end, p, out)
      {
        if text[p] != BACKSLASH {
          UnquotePlain(text, start, end, p, out);
          out, p := out + [text[p]], p + 1;
        } else if text[p + 1] == 117 {
          UnquoteLiteral(text, start, end, p, out);
          var u := Utf16(text[p..], end - p);
          if u.None? { return None; }
          out, p := out + u.value.0, p + u.value.1;
        } else {
          UnquoteLetter(text, start, end, p, out);
          var c := Unletter(text[p + 1]);
          if c.None? { return None; }
          out, p := out + [c.value], p + 2;
        }
      }
      UnquoteEnd(text, start, end, p, out);
      r := Some(out);
    }

    /** parse_string. */
    method ParseStringHere() returns (r: Option<seq<byte>>)
      requires Valid()
      modifies this`offset
      ensures Valid() && offset >= old(offset)
      ensures StringIs(text, old(offset), r, offset) && (r.Some? ==> offset > old(offset))
    {
      if !Here(QUOTE) { return None; }
      var end := FindQuote(offset + 1);
      if end.None? {
        StringFound(text, offset, end, None);
        return None;
      }
      var x := Unquote(offset + 1, end.value);
      StringFound(text, offset, end, x);
      if x.None? { return None; }
      offset := end.value + 1;
      r := Some(Cut(x.value));
    }

    /** The word w stands here. */
    predicate Word(w: seq<byte>)
      reads this
    {
      offset + |w| <= |text| && text[offset..offset + |w|] == w
    }

    /** parse_value. */
    method Value() returns (r: Option<Json>)
      requires Valid()
      modifies this
      ensures Valid() && offset >= old(offset) && ValueIs(text, old(offset), old(depth), r, offset)
      ensures r.Some? ==> depth == old(depth) && offset > old(offset)
      decreases |text| - offset, 0
    {
      ValueCases(text, offset, depth);
      if Word(NULL) {
        offset := offset + 4;
        return Some(Null);
      }
      if Word(FALSE) {
        offset := offset + 5;
        return Some(False);
      }
      if Word(TRUE) {
        offset := offset + 4;
        return Some(True);
      }
      if Here(QUOTE) {
        var x := ParseStringHere();
        ValueString(text, old(offset), depth, x, offset);
        return if x.None? then None else Some(String(x.value));
      }
      ghost var p, d := offset, depth;
      ValueOther(text, p, d);
      r := None;
      if Here(OPEN_ARRAY) {
        r := ArrayHere();
        ValueArray(text, p, d, r, offset);
      } else if Here(OPEN_OBJECT) {
        r := ObjectHere();
        ValueObject(text, p, d, r, offset);
      }
    }

    /** parse_array. */
    method ArrayHere() returns (r: Option<Json>)
      requires Valid() && Here(OPEN_ARRAY)
      modifies this
      ensures Valid() && offset >= old(offset) && ArrayIs(text, old(offset), old(depth), r, offset)
      ensures r.Some? ==> depth == old(depth) && offset > old(offset)
      decreases |text| - offset - 1, 4
    {
      if depth >= NESTING_LIMIT {
        ArrayDeep(text, offset, depth);
        return None;
      }
      depth := depth + 1;
      offset := offset + 1;
      SkipWhitespace();
      ArrayCases(text, old(offset), old(depth), offset);
      if Here(CLOSE_ARRAY) {
        depth := depth - 1;
        offset := offset + 1;
        return Some(Array(NoItem));
      }
      r := FullArray(old(offset));
      if r.Some? { depth := depth - 1; }
    }

    /** An array that is not empty, behind its opening bracket. */
    method FullArray(ghost p: nat) returns (r: Option<Json>)
      requires Valid() && p < offset && p < |text| && text[p] == OPEN_ARRAY && 0 < depth <= NESTING_LIMIT
      requires Skipped(text, p + 1, offset) && Skipped(text, offset, offset) && !Here(CLOSE_ARRAY)
      modifies this
      ensures Valid() && offset >= old(offset) && ArrayIs(text, p, old(depth) - 1, r, offset)
      ensures r.Some? ==> depth == old(depth) && offset > old(offset)
      decreases |text| - offset, 3
    {
      ghost var start, d := offset, depth - 1;
      var items := ItemsHere();
      ArrayItems(text, p, d, start, items, offset);
      r := if items.None? then None else Some(Array(items.value));
    }

    /** The loop of parse_array, with the closing bracket. */
    method ItemsHere() returns (r: Option<Items>)
      requires Valid() && offset > 0 && Skipped(text, offset, offset)
      modifies this
      ensures Valid() && offset >= old(offset) && ItemsIs(text, old(offset), old(depth), r, offset)
      ensures r.Some? ==> depth == old(depth) && offset > old(offset)
      decreases |text| - offset, 2
    {
      ghost var start := offset;
      var vs := [];
      offset := offset - 1;
      ItemsStart(text, start, depth);
      while true
        invariant start <= offset + 1 <= |text| && depth == old(depth) && ItemsSoFar(text, start, depth, vs, offset + 1)
        decreases |text| - offset
      {
        ghost var p := offset + 1;
        offset := offset + 1;
        SkipWhitespace();
        var v := ItemHere(start, p, vs);
        if v.None? { return None; }
        vs := vs + [v.value];
        if !Here(COMMA) { break; }
      }
      r := CloseItems(start, vs);
    }

    method CloseItems(ghost start: nat, vs: seq<Json>) returns (r: Option<Items>)
      requires Valid() && start <= |text| && ItemsThen(text, start, depth, vs, offset) && !Here(COMMA)
      modifies this`offset
      ensures Valid() && offset >= old(offset) && ItemsIs(text, start, depth, r, offset)
    {
      if !Here(CLOSE_ARRAY) { return None; }
      offset := offset + 1;
      r := Some(ChainItems(vs, NoItem));
    }

    /** One element, and the white space behind it. */
    method ItemHere(ghost start: nat, ghost p: nat, ghost vs: seq<Json>) returns (r: Option<Json>)
      requires Valid() && start <= |text| && p <= offset && Skipped(text, p, offset)
        && ItemsSoFar(text, start, depth, vs, p)
      modifies this
      ensures Valid() && offset >= old(offset)
      ensures r.None? ==> ItemsIs(text, start, old(depth), None, offset)
      ensures r.Some? ==> depth == old(depth) && offset > old(offset)
      ensures r.Some? ==> ItemsThen(text, start, depth, vs + [r.value], offset)
      decreases |text| - offset, 1
    {
      ghost var e, d := offset, depth;
      r := Value();
      ghost var f := offset;
      if r.None? {
        ItemsFail(text, start, d, vs, p, e, f);
      } else {
        SkipWhitespace();
        ItemsNext(text, start, d, vs, p, e, r.value, f, offset);
      }
    }

    /** parse_object. */
    method ObjectHere() returns (r: Option<Json>)
      requires Valid() && Here(OPEN_OBJECT)
      modifies this
      ensures Valid() && offset >= old(offset) && ObjectIs(text, old(offset), old(depth), r, offset)
      ensures r.Some? ==> depth == old(depth) && offset > old(offset)
      decreases |text| - offset - 1, 4
    {
      if depth >= NESTING_LIMIT {
        ObjectDeep(text, offset, depth);
        return None;
      }
      ghost var p, d := offset, depth;
      depth := depth + 1;
      offset := offset + 1;
      SkipWhitespace();
      if Here(CLOSE_OBJECT) {
        r := EmptyObject(p, d);
      } else {
        ObjectCases(text, p, d, offset);
        r := FullObject(p, d);
      }
      if r.Some? { depth := depth - 1; }
    }

    /** An object without members, behind its opening brace. */
    method EmptyObject(ghost p: nat, ghost d: nat) returns (r: Option<Json>)
      requires Valid() && p < offset && p < |text| && text[p] == OPEN_OBJECT && d < NESTING_LIMIT
      requires Skipped(text, p + 1, offset) && Here(CLOSE_OBJECT)
      modifies this`offset
      ensures Valid() && offset > old(offset) && ObjectIs(text, p, d, r, offset)
    {
      ObjectCases(text, p, d, offset);
      offset := offset + 1;
      r := Some(Object(NoMember));
    }

    /** An object that is not empty, behind its opening brace. */
    method FullObject(ghost p: nat, ghost d: nat) returns (r: Option<Json>)
      requires Valid() && p < offset && p < |text| && text[p] == OPEN_OBJECT && depth == d + 1 && d < NESTING_LIMIT
      requires Skipped(text, p + 1, offset) && Skipped(text, offset, offset) && !Here(CLOSE_OBJECT)
      modifies this
      ensures Valid() && offset >= old(offset) && ObjectIs(text, p, d, r, offset)
      ensures r.Some? ==> depth == old(depth) && offset > old(offset)
      decreases |text| - offset, 3
    {
      ghost var start := offset;
      var members := MembersHere();
      ObjectMembers(text, p, d, start, members, offset);
      r := if members.None? then None else Some(Object(members.value));
    }

    /** The loop of parse_object, with the closing brace. */
    method MembersHere() returns (r: Option<Members>)
      requires Valid() && offset > 0 && Skipped(text, offset, offset)
      modifies this
      ensures Valid() && offset >= old(offset) && MembersIs(text, old(offset), old(depth), r, offset)
      ensures r.Some? ==> depth == old(depth) && offset > old(offset)
      decreases |text| - offset, 2
    {
      ghost var start := offset;
      var ms := [];
      offset := offset - 1;
      MembersStart(text, start, depth);
      while true
        invariant start <= offset + 1 <= |text| && depth == old(depth)
          && MembersSoFar(text, start, depth, ms, offset + 1)
        decreases |text| - offset
      {
        ghost var p := offset + 1;
        offset := offset + 1;
        SkipWhitespace();
        var m := MemberHere(start, p, ms);
        if m.None? { return None; }
        ms := ms + [m.value];
        if !Here(COMMA) { break; }
      }
      r := CloseMembers(start, ms);
    }

    method CloseMembers(ghost start: nat, ms: seq<(seq<byte>, Json)>) returns (r: Option<Members>)
      requires Valid() && start <= |text| && MembersThen(text, start, depth, ms, offset) && !Here(COMMA)
      modifies this`offset
      ensures Valid() && offset >= old(offset) && MembersIs(text, start, depth, r, offset)
    {
      if !Here(CLOSE_OBJECT) {
        MembersBroken(text, start, depth, ms, offset);
        return None;
      }
      MembersClosed(text, start, depth, ms, offset);
      offset := offset + 1;
      r := Some(ChainMembers(ms, NoMember));
    }

    /** One name and value, and the white space behind them. */
    method MemberHere(ghost start: nat, ghost p: nat, ghost ms: seq<(seq<byte>, Json)>)
      returns (r: Option<(seq<byte>, Json)>)
      requires Valid() && start <= |text| && p <= offset && Skipped(text, p, offset)
        && MembersSoFar(text, start, depth, ms, p)
      modifies this
      ensures Valid() && offset >= old(offset)
      ensures r.None? ==> MembersIs(text, start, old(depth), None, offset)
      ensures r.Some? ==> depth == old(depth) && offset > old(offset)
      ensures r.Some? ==> MembersThen(text, start, depth, ms + [r.value], offset)
      decreases |text| - offset, 1
    {
      ghost var d := depth;
      var name := NameHere(start, p, ms);
      if name.None? { return None; }
      ghost var h := offset;
      var v := Value();
      ghost var k := offset;
      if v.None? {
        MembersFail(text, start, d, ms, name.value, h, k);
        return None;
      }
      SkipWhitespace();
      MembersNext(text, start, d, ms, name.value, h, v.value, k, offset);
      r := Some((name.value, v.value));
    }

    /** A name, the colon and the white space around it. */
    method NameHere(ghost start: nat, ghost p: nat, ghost ms: seq<(seq<byte>, Json)>) returns (r: Option<seq<byte>>)
      requires Valid() && start <= |text| && p <= offset && Skipped(text, p, offset)
        && MembersSoFar(text, start, depth, ms, p)
      modifies this`offset
      ensures Valid() && offset >= old(offset)
      ensures r.None? ==> MembersIs(text, start, depth, None, offset)
      ensures r.Some? ==> offset > old(offset) && NameThen(text, start, depth, ms, r.value, offset)
    {
      ghost var e := offset;
      r := ParseStringHere();
      ghost var f := offset;
      SkipWhitespace();
      ghost var g := offset;
      MembersName(text, start, depth, ms, p, e, r, f, g);
      if r.None? { return; }
      if !Here(COLON) { return None; }
      offset := offset + 1;
      SkipWhitespace();
      NameColon(text, start, depth, ms, p, e, r.value, f, g, offset);
    }
  }

  /** cJSON_Parse: white space and a byte order mark are skipped, and one value is read. */
  method ParseText(text: seq<byte>) returns (r: Option<Json>)
    ensures r == Parse(text)
  {
    var parser := new Parser(text);
    if |text| >= 4 && text[..3] == [0xEF, 0xBB, 0xBF] { parser.offset := 3; }
    ghost var p := parser.offset;
    parser.SkipWhitespace();
    ghost var q := parser.offset;
    r := parser.Value();
    ParsedText(text, p, q, r, parser.offset);
  }

  lemma ParsedText(text: seq<byte>, p: nat, q: nat, r: Option<Json>, e: nat)
    requires p <= |text| && q <= |text| && e <= |text| && text[p..] == SkipBom(text) && Skipped(text, p, q)
    requires ValueIs(text, q, 0, r, e)
    ensures r == Parse(text)
  {
    assert Open();
  }

  /** What the bytes from `start` on stand for is `out` and what those from p on stand for. */
  ghost predicate Unquoting(text: seq<byte>, start: nat, end: nat, p: nat, out: seq<byte>)
    requires start <= end < |text| && p <= |text|
  {
    forall u :: Lock(1, u) ==> Decode(text[start..], end - start) == Prefixed(out, Decode(text[p..], end - p))
  }

  lemma UnquoteStart(text: seq<byte>, start: nat, end: nat)
    requires start <= end < |text|
    ensures Unquoting(text, start, end, start, [])
  {
    PrefixedNone(Decode(text[start..], end - start));
  }

  lemma UnquoteEnd(text: seq<byte>, start: nat, end: nat, p: nat, out: seq<byte>)
    requires start <= end < |text| && end <= p <= |text| && Unquoting(text, start, end, p, out)
    ensures DecodeIs(text, start, end, Some(out))
  {
    assert Open();
    assert out + [] == out;
  }

  lemma UnquotePlain(text: seq<byte>, start: nat, end: nat, p: nat, out: seq<byte>)
    requires start <= end < |text| && p < end && Unquoting(text, start, end, p, out) && text[p] != BACKSLASH
    ensures Unquoting(text, start, end, p + 1, out + [text[p]])
  {
    assert Lock(1, 0);
    var s := text[p..];
    assert s[1..] == text[p + 1..];
    PrefixedMore(out, [text[p]], Decode(s[1..], end - p - 1));
  }

  lemma UnquoteLiteral(text: seq<byte>, start: nat, end: nat, p: nat, out: seq<byte>)
    requires start <= end < |text| && p < end && Unquoting(text, start, end, p, out)
    requires text[p] == BACKSLASH && text[p + 1] == 117
    ensures var u := Utf16(text[p..], end - p);
      if u.None? then DecodeIs(text, start, end, None)
      else p + u.value.1 <= |text| && Unquoting(text, start, end, p + u.value.1, out + u.value.0)
  {
    assert Lock(1, 0);
    var s, n := text[p..], end - p;
    assert s[0] == text[p] && s[1] == text[p + 1];
    var u := Utf16(s, n);
    if u.Some? {
      assert s[u.value.1..] == text[p + u.value.1..];
      PrefixedMore(out, u.value.0, Decode(s[u.value.1..], n - u.value.1));
    }
  }

  lemma UnquoteLetter(text: seq<byte>, start: nat, end: nat, p: nat, out: seq<byte>)
    requires start <= end < |text| && p < end && Unquoting(text, start, end, p, out)
    requires text[p] == BACKSLASH && text[p + 1] != 117
    ensures var c := Unletter(text[p + 1]);
      if c.None? then DecodeIs(text, start, end, None)
      else Unquoting(text, start, end, p + 2, out + [c.value])
  {
    assert Lock(1, 0);
    var s := text[p..];
    assert s[0] == text[p] && s[1] == text[p + 1];
    var c := Unletter(text[p + 1]);
    if c.Some? {
      assert s[2..] == text[p + 2..];
      PrefixedMore(out, [c.value], Decode(s[2..], end - p - 2));
    }
  }

  lemma PrefixedMore(a: seq<byte>, b: seq<byte>, r: Option<seq<byte>>)
    ensures Prefixed(a, Prefixed(b, r)) == Prefixed(a + b, r)
  {
    if r.Some? { assert a + (b + r.value) == a + b + r.value; }
  }

  lemma PrefixedNone(r: Option<seq<byte>>)
    ensures Prefixed([], r) == r
  {
    if r.Some? { assert [] + r.value == r.value; }
  }

  /** The closing quote of the string that starts at `start` is the next one from e on. */
  ghost predicate Searched(text: seq<byte>, start: nat, e: nat)
    requires start <= e <= |text|
  {
    forall u :: Lock(2, u) ==> FindEnd(text[start..]) == Later(e - start, FindEnd(text[e..]))
  }

  lemma FindStep(text: seq<byte>, start: nat, e: nat)
    requires start <= e < |text| && Searched(text, start, e) && text[e] != QUOTE
    ensures text[e] != BACKSLASH ==> Searched(text, start, e + 1)
    ensures text[e] == BACKSLASH && e + 1 < |text| ==> Searched(text, start, e + 2)
    ensures text[e] == BACKSLASH && e + 1 >= |text| ==> EndIs(text, start, None)
  {
    assert Open();
    assert text[e..][1..] == text[e + 1..];
    if e + 1 < |text| { assert text[e..][2..] == text[e + 2..]; }
  }

  lemma FindHere(text: seq<byte>, start: nat, e: nat)
    requires start <= e < |text| && Searched(text, start, e) && text[e] == QUOTE
    ensures EndIs(text, start, Some(e))
  {
    assert Open();
  }

  lemma FindNone(text: seq<byte>, start: nat, e: nat)
    requires start <= e == |text| && Searched(text, start, e)
    ensures EndIs(text, start, None)
  {
    assert Open();
  }

  lemma StringFound(text: seq<byte>, p: nat, end: Option<nat>, x: Option<seq<byte>>)
    requires p < |text| && text[p] == QUOTE && (end.Some? ==> p < end.value < |text|)
    requires EndIs(text, p + 1, end) && (end.Some? ==> DecodeIs(text, p + 1, end.value, x))
    ensures end.None? || x.None? ==> StringIs(text, p, None, p)
    ensures end.Some? && x.Some? ==> StringIs(text, p, Some(Cut(x.value)), end.value + 1)
  {
    assert Open();
    var s := text[p..];
    assert s[1..] == text[p + 1..];
    if end.Some? { assert s[1..][end.value - p..] == text[end.value + 1..]; }
  }

  // What the methods find, kept behind quantifiers: a lemma that needs the definitions asserts Open().

  ghost predicate Open() {
    && Lock(1, 0) && Lock(2, 0) && Lock(3, 0) && Lock(4, 0) && Lock(5, 0) && Lock(6, 0) && Lock(7, 0) && Lock(8, 0)
    && Lock(9, 0) && Lock(10, 0) && Lock(11, 0) && Lock(12, 0) && Lock(13, 0) && Lock(14, 0) && Lock(15, 0)
    && Lock(16, 0)
  }

  ghost predicate EndIs(text: seq<byte>, start: nat, end: Option<nat>)
    requires start <= |text|
  {
    forall u :: Lock(3, u) ==>
      FindEnd(text[start..]) == if end.None? || end.value < start then None else Some(end.value - start)
  }

  ghost predicate DecodeIs(text: seq<byte>, start: nat, end: nat, x: Option<seq<byte>>)
    requires start <= end < |text|
  {
    forall u :: Lock(4, u) ==> Decode(text[start..], end - start) == x
  }

  ghost predicate StringIs(text: seq<byte>, p: nat, r: Option<seq<byte>>, q: nat)
    requires p <= |text| && q <= |text|
  {
    forall u :: Lock(5, u) ==> ParseString(text[p..]) == if r.None? then None else Some((r.value, text[q..]))
  }

  ghost predicate ValueIs(text: seq<byte>, p: nat, depth: nat, r: Option<Json>, q: nat)
    requires p <= |text| && q <= |text|
  {
    forall u :: Lock(6, u) ==> ParseValue(text[p..], depth) == if r.None? then None else Some((r.value, text[q..]))
  }

  ghost predicate ArrayIs(text: seq<byte>, p: nat, depth: nat, r: Option<Json>, q: nat)
    requires p < |text| && text[p] == OPEN_ARRAY && q <= |text|
  {
    forall u :: Lock(7, u) ==> ParseArray(text[p..], depth) == if r.None? then None else Some((r.value, text[q..]))
  }

  ghost predicate ItemsIs(text: seq<byte>, p: nat, depth: nat, r: Option<Items>, q: nat)
    requires p <= |text| && q <= |text|
  {
    forall u :: Lock(8, u) ==> ParseItems(text[p..], depth) == if r.None? then None else Some((r.value, text[q..]))
  }

  /** The elements read so far, and those still to read from q on. */
  ghost predicate ItemsSoFar(text: seq<byte>, start: nat, depth: nat, vs: seq<Json>, q: nat)
    requires start <= |text| && q <= |text|
  {
    forall u :: Lock(9, u) ==> ParseItems(text[start..], depth) == ThenItems(vs, ParseItems(Skip(text[q..]), depth))
  }

  /** After an element: another one, the closing bracket, or neither. */
  ghost predicate ItemsThen(text: seq<byte>, start: nat, depth: nat, vs: seq<Json>, g: nat)
    requires start <= |text| && g <= |text|
  {
    && (g < |text| && text[g] == COMMA ==> ItemsSoFar(text, start, depth, vs, g + 1))
    && (g < |text| && text[g] == CLOSE_ARRAY ==> ItemsIs(text, start, depth, Some(ChainItems(vs, NoItem)), g + 1))
    && (!(g < |text| && (text[g] == COMMA || text[g] == CLOSE_ARRAY)) ==> ItemsIs(text, start, depth, None, g))
  }

  lemma ArrayDeep(text: seq<byte>, p: nat, depth: nat)
    requires p < |text| && text[p] == OPEN_ARRAY && depth >= NESTING_LIMIT
    ensures ArrayIs(text, p, depth, None, p)
  {
  }

  lemma ArrayCases(text: seq<byte>, p: nat, depth: nat, q: nat)
    requires p < |text| && text[p] == OPEN_ARRAY && depth < NESTING_LIMIT && p < q <= |text| && Skipped(text, p + 1, q)
    ensures Skipped(text, q, q)
    ensures q < |text| && text[q] == CLOSE_ARRAY ==> ArrayIs(text, p, depth, Some(Array(NoItem)), q + 1)
  {
    SkipTwice(text, p + 1, q);
    assert Open();
    assert text[p..][1..] == text[p + 1..];
    if q < |text| { assert text[q..][1..] == text[q + 1..]; }
  }

  lemma ArrayItems(text: seq<byte>, p: nat, depth: nat, q: nat, items: Option<Items>, e: nat)
    requires p < |text| && text[p] == OPEN_ARRAY && depth < NESTING_LIMIT && p < q <= |text| && Skipped(text, p + 1, q)
    requires !(q < |text| && text[q] == CLOSE_ARRAY) && e <= |text| && ItemsIs(text, q, depth + 1, items, e)
    ensures ArrayIs(text, p, depth, if items.None? then None else Some(Array(items.value)), e)
  {
    assert Open();
    assert text[p..][1..] == text[p + 1..];
  }

  lemma ItemsStart(text: seq<byte>, start: nat, depth: nat)
    requires start <= |text| && Skipped(text, start, start)
    ensures ItemsSoFar(text, start, depth, [], start)
  {
    assert Open();
  }

  lemma ItemsFail(text: seq<byte>, start: nat, depth: nat, vs: seq<Json>, p: nat, e: nat, f: nat)
    requires start <= |text| && p <= |text| && e <= |text| && f <= |text| && Skipped(text, p, e)
    requires ItemsSoFar(text, start, depth, vs, p) && ValueIs(text, e, depth, None, f)
    ensures ItemsIs(text, start, depth, None, f)
  {
    assert Open();
  }

  lemma ItemsNext(text: seq<byte>, start: nat, depth: nat, vs: seq<Json>, p: nat, e: nat, v: Json, f: nat, g: nat)
    requires start <= |text| && p <= |text| && e <= |text| && f <= |text| && g <= |text|
    requires Skipped(text, p, e) && Skipped(text, f, g)
    requires ItemsSoFar(text, start, depth, vs, p) && ValueIs(text, e, depth, Some(v), f)
    ensures ItemsThen(text, start, depth, vs + [v], g)
  {
    assert Open();
    assert ParseItems(text[e..], depth) == MoreItems(v, text[g..], depth);
    ItemsAfter(text, start, depth, vs, v, g);
  }

  lemma ItemsAfter(text: seq<byte>, start: nat, depth: nat, vs: seq<Json>, v: Json, g: nat)
    requires start <= |text| && g <= |text|
    requires ParseItems(text[start..], depth) == ThenItems(vs, MoreItems(v, text[g..], depth))
    ensures ItemsThen(text, start, depth, vs + [v], g)
  {
    assert (vs + [v])[..|vs|] == vs;
    if g < |text| { assert text[g..][1..] == text[g + 1..] && text[g..][0] == text[g]; }
  }

  ghost predicate ObjectIs(text: seq<byte>, p: nat, depth: nat, r: Option<Json>, q: nat)
    requires p < |text| && text[p] == OPEN_OBJECT && q <= |text|
  {
    forall u :: Lock(10, u) ==> ParseObject(text[p..], depth) == if r.None? then None else Some((r.value, text[q..]))
  }

  ghost predicate MembersIs(text: seq<byte>, p: nat, depth: nat, r: Option<Members>, q: nat)
    requires p <= |text| && q <= |text|
  {
    forall u :: Lock(11, u) ==> ParseMembers(text[p..], depth) == if r.None? then None else Some((r.value, text[q..]))
  }

  /** The members read so far, and those still to read from q on. */
  ghost predicate MembersSoFar(text: seq<byte>, start: nat, depth: nat, ms: seq<(seq<byte>, Json)>, q: nat)
    requires start <= |text| && q <= |text|
  {
    forall u :: Lock(12, u) ==>
      ParseMembers(text[start..], depth) == ThenMembers(ms, ParseMembers(Skip(text[q..]), depth))
  }

  lemma ObjectDeep(text: seq<byte>, p: nat, depth: nat)
    requires p < |text| && text[p] == OPEN_OBJECT && depth >= NESTING_LIMIT
    ensures ObjectIs(text, p, depth, None, p)
  {
  }

  lemma ObjectCases(text: seq<byte>, p: nat, depth: nat, q: nat)
    requires p < |text| && text[p] == OPEN_OBJECT && depth < NESTING_LIMIT && p < q <= |text| && Skipped(text, p + 1, q)
    ensures Skipped(text, q, q)
    ensures q < |text| && text[q] == CLOSE_OBJECT ==> ObjectIs(text, p, depth, Some(Object(NoMember)), q + 1)
  {
    SkipTwice(text, p + 1, q);
    assert Open();
    assert text[p..][1..] == text[p + 1..];
    if q < |text| { assert text[q..][1..] == text[q + 1..]; }
  }

  lemma ObjectMembers(text: seq<byte>, p: nat, depth: nat, q: nat, members: Option<Members>, e: nat)
    requires p < |text| && text[p] == OPEN_OBJECT && depth < NESTING_LIMIT && p < q <= |text| && Skipped(text, p + 1, q)
    requires !(q < |text| && text[q] == CLOSE_OBJECT) && e <= |text| && MembersIs(text, q, depth + 1, members, e)
    ensures ObjectIs(text, p, depth, if members.None? then None else Some(Object(members.value)), e)
  {
    assert Open();
    assert text[p..][1..] == text[p + 1..];
  }

  lemma MembersStart(text: seq<byte>, start: nat, depth: nat)
    requires start <= |text| && Skipped(text, start, start)
    ensures MembersSoFar(text, start, depth, [], start)
  {
    assert Open();
  }

  /** After a member: another one, the closing brace, or neither. */
  ghost predicate MembersThen(text: seq<byte>, start: nat, depth: nat, ms: seq<(seq<byte>, Json)>, g: nat)
    requires start <= |text| && g <= |text|
  {
    && (g < |text| && text[g] == COMMA ==> MembersSoFar(text, start, depth, ms, g + 1))
    && (g < |text| && text[g] == CLOSE_OBJECT ==>
          MembersIs(text, start, depth, Some(ChainMembers(ms, NoMember)), g + 1))
    && (!(g < |text| && (text[g] == COMMA || text[g] == CLOSE_OBJECT)) ==> MembersIs(text, start, depth, None, g))
  }

  lemma MembersName(text: seq<byte>, start: nat, depth: nat, ms: seq<(seq<byte>, Json)>, p: nat, e: nat,
                    name: Option<seq<byte>>, f: nat, g: nat)
    requires start <= |text| && p <= |text| && e <= |text| && f <= |text| && g <= |text|
    requires Skipped(text, p, e) && Skipped(text, f, g)
    requires MembersSoFar(text, start, depth, ms, p) && StringIs(text, e, name, f)
    ensures name.None? || !(g < |text| && text[g] == COLON) ==> MembersIs(text, start, depth, None, g)
  {
    assert Open();
    if g < |text| { assert text[g..][0] == text[g]; }
  }

  /** After a name and its colon: the value from h on and what follows. */
  ghost predicate NameThen(text: seq<byte>, start: nat, depth: nat, ms: seq<(seq<byte>, Json)>, name: seq<byte>, h: nat)
    requires start <= |text| && h <= |text|
  {
    forall u :: Lock(13, u) ==>
      ParseMembers(text[start..], depth) == ThenMembers(ms, AfterName(name, ParseValue(text[h..], depth), depth))
  }

  function AfterName(name: seq<byte>, x: Option<(Json, seq<byte>)>, depth: nat): Option<(Members, seq<byte>)> {
    if x.None? then None else MoreMembers(name, x.value.0, Skip(x.value.1), depth)
  }

  lemma NameColon(text: seq<byte>, start: nat, depth: nat, ms: seq<(seq<byte>, Json)>, p: nat, e: nat,
                  name: seq<byte>, f: nat, g: nat, h: nat)
    requires start <= |text| && p <= |text| && e <= |text| && f <= |text| && g < |text| && h <= |text|
    requires Skipped(text, p, e) && Skipped(text, f, g) && text[g] == COLON && Skipped(text, g + 1, h)
    requires MembersSoFar(text, start, depth, ms, p) && StringIs(text, e, Some(name), f)
    ensures NameThen(text, start, depth, ms, name, h)
  {
    assert Open();
    assert text[g..][1..] == text[g + 1..] && text[g..][0] == text[g];
    assert ParseMembers(text[e..], depth) == AfterName(name, ParseValue(text[h..], depth), depth);
  }

  lemma MembersClosed(text: seq<byte>, start: nat, depth: nat, ms: seq<(seq<byte>, Json)>, g: nat)
    requires start <= |text| && g < |text| && MembersThen(text, start, depth, ms, g) && text[g] == CLOSE_OBJECT
    ensures MembersIs(text, start, depth, Some(ChainMembers(ms, NoMember)), g + 1)
  {
  }

  lemma MembersBroken(text: seq<byte>, start: nat, depth: nat, ms: seq<(seq<byte>, Json)>, g: nat)
    requires start <= |text| && g <= |text| && MembersThen(text, start, depth, ms, g)
    requires g == |text| || (text[g] != COMMA && text[g] != CLOSE_OBJECT)
    ensures MembersIs(text, start, depth, None, g)
  {
  }

  lemma MembersFail(text: seq<byte>, start: nat, depth: nat, ms: seq<(seq<byte>, Json)>, name: seq<byte>, h: nat,
                    k: nat)
    requires start <= |text| && h <= |text| && k <= |text|
    requires NameThen(text, start, depth, ms, name, h) && ValueIs(text, h, depth, None, k)
    ensures MembersIs(text, start, depth, None, k)
  {
    assert Open();
  }

  lemma MembersNext(text: seq<byte>, start: nat, depth: nat, ms: seq<(seq<byte>, Json)>, name: seq<byte>, h: nat,
                    v: Json, k: nat, l: nat)
    requires start <= |text| && h <= |text| && k <= |text| && l <= |text| && Skipped(text, k, l)
    requires NameThen(text, start, depth, ms, name, h) && ValueIs(text, h, depth, Some(v), k)
    ensures MembersThen(text, start, depth, ms + [(name, v)], l)
  {
    assert Open();
    MembersAfter(text, start, depth, ms, name, v, l);
  }

  lemma MembersAfter(text: seq<byte>, start: nat, depth: nat, ms: seq<(seq<byte>, Json)>, name: seq<byte>, v: Json,
                     g: nat)
    requires start <= |text| && g <= |text|
    requires ParseMembers(text[start..], depth) == ThenMembers(ms, MoreMembers(name, v, text[g..], depth))
    ensures MembersThen(text, start, depth, ms + [(name, v)], g)
  {
    assert (ms + [(name, v)])[..|ms|] == ms;
    if g < |text| { assert text[g..][1..] == text[g + 1..] && text[g..][0] == text[g]; }
  }

  /** What stands at the start of a value. */
  lemma ValueCases(text: seq<byte>, p: nat, depth: nat)
    requires p <= |text|
    ensures p + 4 <= |text| && text[p..p + 4] == NULL ==> ValueIs(text, p, depth, Some(Null), p + 4)
    ensures p + 5 <= |text| && text[p..p + 5] == FALSE ==> ValueIs(text, p, depth, Some(False), p + 5)
    ensures p + 4 <= |text| && text[p..p + 4] == TRUE ==> ValueIs(text, p, depth, Some(True), p + 4)
    ensures
      || (p + 4 <= |text| && (text[p..p + 4] == NULL || text[p..p + 4] == TRUE))
      || (p + 5 <= |text| && text[p..p + 5] == FALSE)
         || NoWordAt(text, p)
  {
    var s := text[p..];
    if |s| >= 4 { assert s[..4] == text[p..p + 4] && s[4..] == text[p + 4..]; }
    if |s| >= 5 { assert s[..5] == text[p..p + 5] && s[5..] == text[p + 5..]; }
    if Starts(s, FALSE) { assert s[..4][0] == s[..5][0]; }
    if Starts(s, TRUE) && |s| >= 5 { assert s[..4][0] == s[..5][0]; }
  }

  ghost predicate NoWordAt(text: seq<byte>, p: nat)
    requires p <= |text|
  {
    forall u :: Lock(14, u) ==> !Starts(text[p..], NULL) && !Starts(text[p..], FALSE) && !Starts(text[p..], TRUE)
  }

  /** A value that is neither a word nor a string. */
  lemma ValueOther(text: seq<byte>, p: nat, depth: nat)
    requires p <= |text| && NoWordAt(text, p) && !(p < |text| && text[p] == QUOTE)
    ensures !(p < |text| && (text[p] == OPEN_ARRAY || text[p] == OPEN_OBJECT)) ==> ValueIs(text, p, depth, None, p)
  {
    assert Open();
  }

  lemma ValueArray(text: seq<byte>, p: nat, depth: nat, r: Option<Json>, q: nat)
    requires p < |text| && q <= |text| && NoWordAt(text, p) && text[p] == OPEN_ARRAY && ArrayIs(text, p, depth, r, q)
    ensures ValueIs(text, p, depth, r, q)
  {
    assert Open();
  }

  lemma ValueObject(text: seq<byte>, p: nat, depth: nat, r: Option<Json>, q: nat)
    requires p < |text| && q <= |text| && NoWordAt(text, p) && text[p] == OPEN_OBJECT && ObjectIs(text, p, depth, r, q)
    ensures ValueIs(text, p, depth, r, q)
  {
    assert Open();
  }

  // White space.

  ghost predicate Skipped(text: seq<byte>, p: nat, q: nat)
    requires p <= |text| && q <= |text|
  {
    forall u :: Lock(15, u) ==> text[q..] == Skip(text[p..])
  }

  ghost predicate SameSkip(text: seq<byte>, p: nat, q: nat)
    requires p <= |text| && q <= |text|
  {
    forall u :: Lock(16, u) ==> Skip(text[q..]) == Skip(text[p..])
  }

  lemma SkipStep(text: seq<byte>, p: nat, q: nat)
    requires p <= |text| && q < |text| && text[q] <= 32 && SameSkip(text, p, q)
    ensures SameSkip(text, p, q + 1)
  {
    assert Open();
    assert text[q..][1..] == text[q + 1..];
  }

  lemma SkipDone(text: seq<byte>, p: nat, q: nat)
    requires p <= |text| && q <= |text| && (q < |text| ==> text[q] > 32) && SameSkip(text, p, q)
    ensures Skipped(text, p, q)
  {
    assert Open();
  }

  lemma SkipTwice(text: seq<byte>, p: nat, q: nat)
    requires p <= |text| && q <= |text| && Skipped(text, p, q)
    ensures Skipped(text, q, q)
  {
    assert Open();
    SkipIdempotent(text[p..]);
  }

  lemma {:induction false} SkipIdempotent(s: seq<byte>)
    ensures Skip(Skip(s)) == Skip(s)
  {
    if s != [] && s[0] <= 32 { SkipIdempotent(s[1..]); }
  }

  lemma ValueString(text: seq<byte>, p: nat, depth: nat, x: Option<seq<byte>>, q: nat)
    requires p < |text| && text[p] == QUOTE && q <= |text| && NoWordAt(text, p) && StringIs(text, p, x, q)
    ensures ValueIs(text, p, depth, if x.None? then None else Some(String(x.value)), q)
  {
    assert Open();
  }
}
