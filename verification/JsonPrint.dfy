/** The JSON printer as code: one buffer that grows, an offset, and a terminating zero that says how far the
    last piece reaches. */
module JsonPrint {
  import opened Basics
  import opened Bytes
  import opened JsonString
  import opened JsonText
  import opened JsonTrip
  import opened JsonCode

  // ---------- No text contains the terminating zero ----------

  lemma {:induction false} EscNoZero(s: seq<byte>)
    requires 0 !in s
    ensures 0 !in EscAll(s)
    decreases |s|
  {
    if s != [] {
      assert s[0] in s && 0 !in Esc(s[0]);
      forall x | x in s[1..] ensures x in s {}
      EscNoZero(s[1..]);
    }
  }

  lemma QuotedNoZero(s: seq<byte>)
    requires 0 !in s
    ensures 0 !in Quoted(s)
  {
    EscNoZero(s);
  }

  lemma {:induction false} PrintNoZero(j: Json, fmt: bool, depth: nat)
    requires Clean(j)
    ensures 0 !in Print(j, fmt, depth)
    decreases j
  {
    match j
    case Null =>
    case False =>
    case True =>
    case String(s) => QuotedNoZero(s);
    case Array(items) => ItemsNoZero(items, fmt, depth + 1);
    case Object(members) => MembersNoZero(members, fmt, depth + 1);
  }

  lemma {:induction false} ItemsNoZero(items: Items, fmt: bool, depth: nat)
    requires CleanItems(items)
    ensures 0 !in PrintItems(items, fmt, depth)
    decreases items
  {
    if items.Item? {
      PrintNoZero(items.value, fmt, depth);
      ItemsNoZero(items.next, fmt, depth);
    }
  }

  lemma {:induction false} MembersNoZero(members: Members, fmt: bool, depth: nat)
    requires CleanMembers(members)
    ensures 0 !in PrintMembers(members, fmt, depth)
    decreases members
  {
    if members.Member? {
      QuotedNoZero(members.name);
      PrintNoZero(members.value, fmt, depth);
      MembersNoZero(members.next, fmt, depth);
    }
  }

  // ---------- The buffer ----------

  /** printbuffer. `limit` is the largest size there may be, INT_MAX; `grows` is the opposite of noalloc. */
  class Printer {
    const format: bool
    const limit: nat
    const grows: bool
    var buffer: array<byte>
    var offset: nat
    var depth: nat

    ghost predicate Valid()
      reads this`buffer, this`offset
    {
      offset < buffer.Length
    }

    /** What has been printed up to the offset. */
    ghost function Text(): seq<byte>
      requires Valid()
      reads this`buffer, this`offset, buffer
    {
      buffer[..offset]
    }

    /** The buffer holds t up to the terminating zero, which is the first one behind the offset. */
    ghost predicate Holds(t: seq<byte>)
      reads this`buffer, this`offset, buffer
    {
      forall u :: Lock(20, u) ==>
        offset <= |t| < buffer.Length && buffer[..|t|] == t && buffer[|t|] == 0 && 0 !in t[offset..]
    }

    constructor (size: nat, format: bool, limit: nat, grows: bool)
      requires size > 0
      ensures Valid() && Text() == [] && depth == 0 && fresh(buffer)
      ensures this.format == format && this.limit == limit && this.grows == grows
    {
      this.format, this.limit, this.grows := format, limit, grows;
      buffer, offset, depth := new byte[size](_ => 0), 0, 0;
    }

    /** The size is there, or can be had. */
    predicate Fits(size: nat, length: nat) { size <= length || (grows && size <= limit) }

    /** ensure: room for `needed` more bytes and one. */
    method Ensure(needed: nat) returns (ok: bool)
      requires Valid()
      modifies this`buffer
      ensures Valid() && Text() == old(Text()) && (buffer == old(buffer) || fresh(buffer))
      ensures ok ==> offset + needed < buffer.Length
      ensures ok <==> needed <= limit && Fits(offset + needed + 1, old(buffer.Length))
    {
      if needed > limit { return false; }
      var total := needed + offset + 1;
      if total <= buffer.Length { return true; }
      if !grows { return false; }
      var size;
      if total > limit / 2 {
        if total > limit { return false; }
        size := limit;
      } else {
        size := total * 2;
      }
      Reallocate(size);
      ok := true;
    }

    method Reallocate(size: nat)
      requires Valid() && size > offset
      modifies this`buffer
      ensures Valid() && Text() == old(Text()) && fresh(buffer) && buffer.Length == size
    {
      var more := new byte[size](_ => 0);
      var i := 0;
      while i < offset
        invariant 0 <= i <= offset && Valid() && buffer == old(buffer) && more[..i] == buffer[..i]
      {
        more[i] := buffer[i];
        i := i + 1;
      }
      buffer := more;
    }

    /** Bytes are written from the offset on. */
    method Store(s: seq<byte>)
      requires Valid() && offset + |s| <= buffer.Length
      modifies buffer
      ensures buffer[..offset + |s|] == old(Text()) + s
    {
      var i := 0;
      while i < |s|
        invariant 0 <= i <= |s| && buffer[..offset + i] == old(Text()) + s[..i]
      {
        buffer[offset + i] := s[i];
        i := i + 1;
      }
      assert s[..|s|] == s;
    }

    /** Bytes are added, and the offset moves behind them. The zero that the code puts behind some of them is
        overwritten by the next piece. */
    method Append(s: seq<byte>, room: nat) returns (ok: bool)
      requires Valid() && |s| <= room
      modifies this`buffer, this`offset, buffer
      ensures buffer == old(buffer) || fresh(buffer)
      ensures ok ==> Valid() && Text() == old(Text()) + s
      ensures grows && |old(Text())| + room + 1 <= limit ==> ok
    {
      ok := Ensure(room);
      if !ok { return; }
      Store(s);
      offset := offset + |s|;
    }

    /** Bytes are added with a terminating zero, and the offset stays where it is. */
    method Close(s: seq<byte>, room: nat) returns (ok: bool)
      requires Valid() && |s| < room && 0 !in s
      modifies this`buffer, buffer
      ensures buffer == old(buffer) || fresh(buffer)
      ensures ok ==> Valid() && Holds(old(Text()) + s)
      ensures grows && |old(Text())| + room + 1 <= limit ==> ok
    {
      ok := Ensure(room);
      if !ok { return; }
      Store(s + [0]);
      Assoc(old(Text()), s, [0]);
      Terminated(old(Text()), s);
    }

    /** update_offset: the offset moves to the terminating zero. */
    method UpdateOffset(ghost t: seq<byte>)
      requires Holds(t)
      modifies this`offset
      ensures Valid() && Text() == t
    {
      assert Lock(20, 0);
      while buffer[offset] != 0
        invariant old(offset) <= offset <= |t| < buffer.Length && buffer[..|t|] == t && buffer[|t|] == 0
        invariant 0 !in t[offset..]
        decreases |t| - offset
      {
        assert offset == |t| || buffer[..|t|][offset] == t[offset];
        offset := offset + 1;
      }
    }

    /** print_string_ptr. */
    method StringHere(s: seq<byte>) returns (ok: bool)
      requires Valid() && 0 !in s
      modifies this`buffer, buffer
      ensures buffer == old(buffer) || fresh(buffer)
      ensures ok ==> Valid() && Holds(old(Text()) + Quoted(s))
      ensures grows && |old(Text())| + |Quoted(s)| + 2 <= limit ==> ok
    {
      var extra := CountExtra(s);
      ok := Ensure(|s| + extra + 3);
      if !ok { return; }
      Quote(buffer, offset, s, |s| + extra);
      QuotedNoZero(s);
      Terminated(old(Text()), Quoted(s));
    }

    /** What follows from the bytes in the buffer. */
    lemma Terminated(start: seq<byte>, s: seq<byte>)
      requires offset == |start| && offset + |s| < buffer.Length && buffer[..offset + |s| + 1] == start + s + [0]
      requires 0 !in s
      ensures Holds(start + s)
    {
      var t := start + s;
      assert buffer[..|t|] == buffer[..|t| + 1][..|t|] && buffer[|t|] == buffer[..|t| + 1][|t|];
      assert t[offset..] == s;
    }

    // ---------- print_value ----------

    /** print_value. It fails only if the text does not fit. */
    method Value(j: Json) returns (ok: bool)
      requires Valid() && Clean(j)
      modifies this, buffer
      ensures buffer == old(buffer) || fresh(buffer)
      ensures ok ==> Valid() && depth == old(depth) && Holds(old(Text()) + Print(j, format, old(depth)))
      ensures grows && |old(Text())| + |Print(j, format, old(depth))| + 2 <= limit ==> ok
      decreases Size(j), 2
    {
      match j {
        case Null => ok := Close(NULL, 5);
        case False => ok := Close(FALSE, 6);
        case True => ok := Close(TRUE, 5);
        case String(s) => ok := StringHere(s);
        case Array(items) => ok := ArrayHere(items);
        case Object(members) => ok := ObjectHere(members);
      }
    }

    /** print_array. */
    method ArrayHere(items: Items) returns (ok: bool)
      requires Valid() && CleanItems(items)
      modifies this, buffer
      ensures buffer == old(buffer) || fresh(buffer)
      ensures ok ==> Valid() && depth == old(depth) && Holds(old(Text()) + Print(Array(items), format, old(depth)))
      ensures grows && |old(Text())| + |Print(Array(items), format, old(depth))| + 2 <= limit ==> ok
      decreases 1 + SizeItems(items), 1
    {
      ghost var start, all := Text(), PrintItems(items, format, depth + 1);
      ghost var whole := start + [OPEN_ARRAY] + all;
      ghost var t := whole + [CLOSE_ARRAY];
      assert start + Print(Array(items), format, depth) == t && |t| == |start| + |all| + 2;
      ok := Append([OPEN_ARRAY], 1);
      if !ok { return; }
      depth := depth + 1;
      ok := AllItems(items, whole);
      if !ok { return; }
      ok := Close([CLOSE_ARRAY], 2);
      assert ok ==> Holds(t);
      depth := depth - 1;
    }

    /** The loop over the elements. */
    method AllItems(items: Items, ghost whole: seq<byte>) returns (ok: bool)
      requires Valid() && CleanItems(items) && Text() + PrintItems(items, format, depth) == whole
      modifies this, buffer
      ensures buffer == old(buffer) || fresh(buffer)
      ensures ok ==> Valid() && depth == old(depth) && Text() == whole
      ensures grows && |whole| + 3 <= limit ==> ok
      decreases SizeItems(items), 1
    {
      var current := items;
      while current.Item?
        invariant Valid() && depth == old(depth) && CleanItems(current) && SizeItems(current) <= SizeItems(items)
        invariant buffer == old(buffer) || fresh(buffer)
        invariant Text() + PrintItems(current, format, depth) == whole
        decreases SizeItems(current)
      {
        ok := ItemHere(current, whole);
        if !ok { return; }
        current := current.next;
      }
      assert Text() + [] == Text();
      ok := true;
    }

    /** One element, and the comma behind it. */
    method ItemHere(current: Items, ghost whole: seq<byte>) returns (ok: bool)
      requires Valid() && current.Item? && CleanItems(current)
      requires Text() + PrintItems(current, format, depth) == whole
      modifies this, buffer
      ensures buffer == old(buffer) || fresh(buffer)
      ensures ok ==> Valid() && depth == old(depth) && Text() + PrintItems(current.next, format, depth) == whole
      ensures grows && |whole| + 3 <= limit ==> ok
      decreases SizeItems(current), 0
    {
      ghost var start, d := Text(), depth;
      ghost var p, sep := Print(current.value, format, d), Only(current.next.Item?, [COMMA] + Only(format, [SPACE]));
      ghost var rest := PrintItems(current.next, format, d);
      assert whole == start + p + sep + rest;
      ok := Value(current.value);
      if !ok { return; }
      UpdateOffset(start + p);
      if current.next.Item? {
        ok := Append(if format then [COMMA, SPACE] else [COMMA], if format then 3 else 2);
        if !ok { return; }
      }
      assert Text() == start + p + sep;
    }

    /** print_object. */
    method ObjectHere(members: Members) returns (ok: bool)
      requires Valid() && CleanMembers(members)
      modifies this, buffer
      ensures buffer == old(buffer) || fresh(buffer)
      ensures ok ==> Valid() && depth == old(depth) && Holds(old(Text()) + Print(Object(members), format, old(depth)))
      ensures grows && |old(Text())| + |Print(Object(members), format, old(depth))| + 2 <= limit ==> ok
      decreases 1 + SizeMembers(members), 1
    {
      ghost var p := Print(Object(members), format, depth);
      ghost var t := ObjectParts(Text(), members, format, depth, p);
      ok := Between(Opening(format), members, Ending(format, depth), t);
    }

    /** The members between the braces. */
    method Between(open: seq<byte>, members: Members, end: seq<byte>, ghost t: seq<byte>) returns (ok: bool)
      requires Valid() && CleanMembers(members) && 0 !in end && |end| == if format then depth + 1 else 1
      requires t == Text() + open + PrintMembers(members, format, depth + 1) + end
      modifies this, buffer
      ensures buffer == old(buffer) || fresh(buffer)
      ensures ok ==> Valid() && depth == old(depth) && Holds(t)
      ensures grows && |t| + 2 <= limit ==> ok
      decreases 1 + SizeMembers(members), 0
    {
      ghost var all := PrintMembers(members, format, depth + 1);
      ghost var whole := Text() + open + all;
      assert t == whole + end && |t| == |Text()| + |open| + |all| + |end|;
      ok := Append(open, |open| + 1);
      if !ok { return; }
      depth := depth + 1;
      ok := AllMembers(members, whole);
      if !ok { return; }
      ok := Close(end, if format then depth + 1 else 2);
      depth := depth - 1;
    }

    /** The loop over the members. */
    method AllMembers(members: Members, ghost whole: seq<byte>) returns (ok: bool)
      requires Valid() && CleanMembers(members) && Text() + PrintMembers(members, format, depth) == whole
      modifies this, buffer
      ensures buffer == old(buffer) || fresh(buffer)
      ensures ok ==> Valid() && depth == old(depth) && Text() == whole
      ensures grows && |whole| + 3 <= limit ==> ok
      decreases SizeMembers(members), 1
    {
      var current := members;
      while current.Member?
        invariant Valid() && depth == old(depth) && CleanMembers(current)
        invariant SizeMembers(current) <= SizeMembers(members)
        invariant buffer == old(buffer) || fresh(buffer)
        invariant Text() + PrintMembers(current, format, depth) == whole
        decreases SizeMembers(current)
      {
        ok := MemberHere(current, whole);
        if !ok { return; }
        current := current.next;
      }
      assert Text() + [] == Text();
      ok := true;
    }

    /** One name and value, with what stands around them. */
    method MemberHere(current: Members, ghost whole: seq<byte>) returns (ok: bool)
      requires Valid() && current.Member? && CleanMembers(current)
      requires Text() + PrintMembers(current, format, depth) == whole
      modifies this, buffer
      ensures buffer == old(buffer) || fresh(buffer)
      ensures ok ==> Valid() && depth == old(depth) && Text() + PrintMembers(current.next, format, depth) == whole
      ensures grows && |whole| + 3 <= limit ==> ok
      decreases SizeMembers(current), 0
    {
      ghost var start, p := Text(), Print(current.value, format, depth);
      var tabs, colon, sep := Only(format, Tabs(depth)), Colon(format), Separator(format, current.next);
      ghost var head := start + tabs + Quoted(current.name) + colon;
      MemberParts(start, current, format, depth);
      ok := NameHere(current.name, tabs, colon);
      if !ok { return; }
      ok := Value(current.value);
      if !ok { return; }
      UpdateOffset(head + p);
      ok := Append(sep, |sep| + 1);
    }

    /** The tabs before a name, the name and the colon behind it. */
    method NameHere(name: seq<byte>, tabs: seq<byte>, colon: seq<byte>) returns (ok: bool)
      requires Valid() && 0 !in name && tabs == Only(format, Tabs(depth))
      modifies this`buffer, this`offset, buffer
      ensures buffer == old(buffer) || fresh(buffer)
      ensures ok ==> Valid() && Text() == old(Text()) + tabs + Quoted(name) + colon
      ensures grows && |old(Text())| + |tabs| + |Quoted(name)| + |colon| + 2 <= limit ==> ok
    {
      ghost var start := Text();
      if format {
        ok := Append(tabs, depth);
        if !ok { return; }
      }
      assert Text() == start + tabs;
      ok := StringHere(name);
      if !ok { return; }
      UpdateOffset(start + tabs + Quoted(name));
      ok := Append(colon, |colon|);
    }
  }

  /** What stands before and behind the members of an object, behind a name and behind a value. */
  function Opening(fmt: bool): seq<byte> { [OPEN_OBJECT] + Only(fmt, [NEWLINE]) }

  function Ending(fmt: bool, d: nat): seq<byte> { Only(fmt, Tabs(d)) + [CLOSE_OBJECT] }

  function Colon(fmt: bool): seq<byte> { [COLON] + Only(fmt, [TAB]) }

  function Separator(fmt: bool, next: Members): seq<byte> { Only(next.Member?, [COMMA]) + Only(fmt, [NEWLINE]) }

  lemma ObjectParts(start: seq<byte>, ms: Members, fmt: bool, d: nat, p: seq<byte>) returns (t: seq<byte>)
    requires p == Print(Object(ms), fmt, d)
    ensures t == start + p && |t| == |start| + |p|
    ensures t == start + Opening(fmt) + PrintMembers(ms, fmt, d + 1) + Ending(fmt, d)
    ensures 0 !in Ending(fmt, d) && |Ending(fmt, d)| == if fmt then d + 1 else 1
  {
    t := start + p;
    var open, all, end := Opening(fmt), PrintMembers(ms, fmt, d + 1), Ending(fmt, d);
    Assoc([OPEN_OBJECT], Only(fmt, [NEWLINE]), all + end);
    Assoc(start, open, all + end);
    Assoc(start + open, all, end);
  }

  lemma MemberParts(start: seq<byte>, m: Members, fmt: bool, d: nat)
    requires m.Member?
    ensures start + PrintMembers(m, fmt, d) ==
      start + Only(fmt, Tabs(d)) + Quoted(m.name) + Colon(fmt) + Print(m.value, fmt, d) + Separator(fmt, m.next)
      + PrintMembers(m.next, fmt, d)
  {
    var q, p, rest := Quoted(m.name), Print(m.value, fmt, d), PrintMembers(m.next, fmt, d);
    Assoc(Only(m.next.Member?, [COMMA]), Only(fmt, [NEWLINE]), rest);
    Assoc([COLON], Only(fmt, [TAB]), p + (Separator(fmt, m.next) + rest));
    Regroup(start, Only(fmt, Tabs(d)), q, Colon(fmt), p, Separator(fmt, m.next), rest);
  }

  lemma Regroup(a: seq<byte>, b: seq<byte>, c: seq<byte>, d: seq<byte>, e: seq<byte>, f: seq<byte>, g: seq<byte>)
    ensures a + (b + (c + (d + (e + (f + g))))) == a + b + c + d + e + f + g
  {
    Assoc(a, b, c + (d + (e + (f + g))));
    Assoc(a + b, c, d + (e + (f + g)));
    Assoc(a + b + c, d, e + (f + g));
    Assoc(a + b + c + d, e, f + g);
    Assoc(a + b + c + d + e, f, g);
  }

  /** A measure for the recursion: one for every value and list entry. */
  function Size(j: Json): nat {
    match j
    case Array(items) => 1 + SizeItems(items)
    case Object(members) => 1 + SizeMembers(members)
    case _ => 1
  }

  function SizeItems(items: Items): nat {
    match items
    case NoItem => 0
    case Item(v, next) => 1 + Size(v) + SizeItems(next)
  }

  function SizeMembers(members: Members): nat {
    match members
    case NoMember => 0
    case Member(_, v, next) => 1 + Size(v) + SizeMembers(next)
  }

  /** A string in quotes with a terminating zero, from position `start` on. */
  method Quote(out: array<byte>, start: nat, s: seq<byte>, length: nat)
    requires length == |EscAll(s)| && start + |Quoted(s)| < out.Length
    modifies out
    ensures out[..start + |Quoted(s)| + 1] == old(out[..start]) + Quoted(s) + [0]
  {
    ghost var was, body := out[..start], EscAll(s);
    out[start] := QUOTE;
    assert out[..start + 1] == was + [QUOTE];
    Fill(out, start + 1, s);
    var end := start + 1 + length;
    ghost var before := out[..end];
    assert before == was + [QUOTE] + body;
    out[end], out[end + 1] := QUOTE, 0;
    Ends(out, end, before);
    QuotedParts(was, body);
  }

  lemma Ends(out: array<byte>, end: nat, before: seq<byte>)
    requires end + 1 < out.Length && out[..end] == before && out[end] == QUOTE && out[end + 1] == 0
    ensures out[..end + 2] == before + [QUOTE] + [0]
  {
  }

  lemma QuotedParts(was: seq<byte>, body: seq<byte>)
    ensures was + [QUOTE] + body + [QUOTE] + [0] == was + ([QUOTE] + body + [QUOTE]) + [0]
  {
    Assoc(was, [QUOTE], body);
    Assoc(was, [QUOTE] + body, [QUOTE]);
  }

  const DEFAULT_SIZE := 256

  /** print: the text with its terminating zero, in an array of just that size. It fails only if the text is
      too long. */
  method PrintText(j: Json, fmt: bool, limit: nat) returns (out: Option<array<byte>>)
    requires Clean(j)
    ensures out.Some? ==> fresh(out.value) && out.value[..] == Print(j, fmt, 0) + [0]
    ensures |Print(j, fmt, 0)| + 2 <= limit ==> out.Some?
  {
    var p := new Printer(DEFAULT_SIZE, fmt, limit, true);
    var ok := p.Value(j);
    if !ok { return None; }
    ghost var t := Print(j, fmt, 0);
    assert [] + t == t;
    p.UpdateOffset(t);
    var printed := CopyOut(p.buffer, p.offset);
    out := Some(printed);
  }

  method CopyOut(b: array<byte>, n: nat) returns (out: array<byte>)
    requires n <= b.Length
    ensures fresh(out) && out[..] == b[..n] + [0]
  {
    out := new byte[n + 1](_ => 0);
    var i := 0;
    while i < n
      invariant 0 <= i <= n && out[n] == 0 && out[..i] == b[..i]
    {
      out[i] := b[i];
      i := i + 1;
    }
    assert out[..] == out[..n] + [0];
  }

  /** What the code prints, the code parses: the tree comes back if and only if it is nested at most 1000 deep. */
  method PrintAndParse(j: Json, fmt: bool, limit: nat) returns (r: Option<Json>)
    requires Clean(j) && |Print(j, fmt, 0)| + 2 <= limit
    ensures r == Some(j) <==> Nesting(j) <= NESTING_LIMIT
  {
    var out := PrintText(j, fmt, limit);
    var text := out.value[..out.value.Length - 1];
    assert text == Print(j, fmt, 0);
    JsonRoundTrip(j, fmt);
    r := ParseText(text);
  }
}
