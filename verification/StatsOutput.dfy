/** The text of the statistics: a buffer whose size is computed beforehand, filled front to back, with
    commas and braces patched in place. */
module StatsOutput {
  import opened Basics

  /** A value to print; numbers are 64-bit. */
  datatype Value = Str(s: string) | Num(n: int) | Obj(members: Members)
  datatype Members = End | Member(key: string, value: Value, next: Members)

  const INT64_DIGITS: nat := 20
  const EXTRA: nat := 8
  const ALIGNMENT: nat := 8

  predicate Int64(n: int) { -0x8000_0000_0000_0000 <= n < 0x8000_0000_0000_0000 }

  // ---------- Decimal numbers ----------

  function Digits(n: nat): (s: string)
    ensures s != []
  {
    if n < 10 then [('0' as int + n) as char] else Digits(n / 10) + [('0' as int + n % 10) as char]
  }

  function Decimal(n: int): string { if n < 0 then "-" + Digits(-n) else Digits(n) }

  function Power(k: nat): nat { if k == 0 then 1 else 10 * Power(k - 1) }

  lemma {:induction false} DigitsShort(n: nat, k: nat)
    requires k > 0 && n < Power(k)
    ensures |Digits(n)| <= k
  {
    if n >= 10 {
      assert Power(1) == 10 * Power(0);
      DigitsShort(n / 10, k - 1);
    }
  }

  lemma PowerBig()
    ensures Power(19) > 0x8000_0000_0000_0000
  {
    assert Power(5) == 100000 by { assert Power(3) == 1000; }
    PowerAdd(5, 5);
    PowerAdd(10, 5);
    PowerAdd(15, 4);
    assert Power(4) == 10000;
  }

  lemma {:induction false} PowerAdd(a: nat, b: nat)
    ensures Power(a + b) == Power(a) * Power(b)
  {
    if b > 0 {
      PowerAdd(a, b - 1);
      assert Power(a) * (10 * Power(b - 1)) == 10 * (Power(a) * Power(b - 1));
    }
  }

  /** Twenty characters are enough for any 64-bit number. */
  lemma DecimalShort(n: int)
    requires Int64(n)
    ensures |Decimal(n)| <= INT64_DIGITS
  {
    PowerBig();
    if n < 0 { DigitsShort(-n, 19); } else { DigitsShort(n, 19); }
  }

  /** The number that decimal digits stand for, and a text with a sign. */
  function Read(s: string): int { if s == [] then 0 else Read(s[..|s| - 1]) * 10 + (s[|s| - 1] as int - '0' as int) }

  function ReadSigned(s: string): int { if s != [] && s[0] == '-' then -Read(s[1..]) else Read(s) }

  lemma {:induction false} DigitsRead(n: nat)
    ensures Read(Digits(n)) == n && forall i :: 0 <= i < |Digits(n)| ==> '0' <= Digits(n)[i] <= '9'
  {
    if n < 10 {
      assert Digits(n)[..0] == [];
    } else {
      var front := Digits(n / 10);
      DigitsRead(n / 10);
      assert Digits(n)[..|front|] == front;
    }
  }

  /** What is printed for a number, read as a number, is that number. */
  lemma DecimalRead(n: int)
    ensures ReadSigned(Decimal(n)) == n
  {
    if n < 0 {
      DigitsRead(-n);
      assert Decimal(n)[1..] == Digits(-n);
    } else {
      DigitsRead(n);
    }
  }

  // ---------- The text that is wanted ----------

  /** Members are separated by a comma and, after a plain value, a blank. */
  function Sep(v: Value): string { if v.Obj? then "," else ", " }

  /** An object as a recursive printer prints it. */
  function Print(members: Members): string
    decreases members, 1
  {
    "{" + (PrintMembers(members) + "}")
  }

  function PrintMembers(members: Members): string
    decreases members, 0
  {
    match members
    case End => ""
    case Member(k, v, next) => PrintMember(k, v) + (if next.End? then "" else Sep(v) + PrintMembers(next))
  }

  function PrintMember(k: string, v: Value): string
    decreases v, 0
  {
    match v
    case Str(s) => "\"" + (k + ("\":\"" + (s + "\"")))
    case Num(n) => "\"" + (k + ("\":" + Decimal(n)))
    case Obj(ms) => "\"" + (k + ("\": " + Print(ms)))
  }

  // ---------- The text as it is written ----------

  /** Every member with its separator. */
  function Open(members: Members): string {
    match members
    case End => ""
    case Member(k, v, next) => PrintMember(k, v) + (Sep(v) + Open(next))
  }

  /** The last value of a list that is not empty. */
  function Last(members: Members): Value
    requires members.Member?
  {
    if members.next.End? then members.value else Last(members.next)
  }

  /** What is written is what is wanted and one separator. */
  lemma {:induction false} OpenIs(members: Members)
    requires members.Member?
    ensures Open(members) == PrintMembers(members) + Sep(Last(members))
  {
    var p, s := PrintMember(members.key, members.value), Sep(members.value);
    if members.next.End? {
      assert p + (s + "") == p + "" + s;
    } else {
      OpenIs(members.next);
      var q, r := PrintMembers(members.next), Sep(Last(members.next));
      assert p + (s + (q + r)) == p + (s + q) + r;
    }
  }

  // ---------- The size ----------

  /** What stats_create_buf counts for the members. */
  function Size(members: Members): nat {
    match members
    case End => 0
    case Member(k, v, next) => |k| + SizeOf(v) + EXTRA + Size(next)
  }

  function SizeOf(v: Value): nat {
    match v
    case Str(s) => |s|
    case Num(_) => INT64_DIGITS
    case Obj(ms) => Size(ms)
  }

  /** All numbers have 64 bits, and no inner object is empty. */
  predicate Fine(members: Members) {
    members.Member? ==> FineValue(members.value) && Fine(members.next)
  }

  predicate FineValue(v: Value) {
    match v
    case Str(_) => true
    case Num(n) => Int64(n)
    case Obj(ms) => ms.Member? && Fine(ms)
  }

  /** What is written for a member stays within its size. */
  lemma {:induction false} MemberFits(k: string, v: Value)
    requires FineValue(v)
    ensures |PrintMember(k, v)| + |Sep(v)| <= |k| + SizeOf(v) + EXTRA
    decreases v, 1
  {
    match v
    case Str(s) =>
    case Num(n) => DecimalShort(n);
    case Obj(ms) =>
      OpenFits(ms);
      OpenIs(ms);
  }

  lemma {:induction false} OpenFits(members: Members)
    requires Fine(members)
    ensures |Open(members)| <= Size(members)
    decreases members
  {
    if members.Member? {
      MemberFits(members.key, members.value);
      OpenFits(members.next);
    }
  }

  function Joined(a: Members, b: Members): Members {
    if a.End? then b else Member(a.key, a.value, Joined(a.next, b))
  }

  lemma {:induction false} OpenJoined(a: Members, b: Members)
    ensures Open(Joined(a, b)) == Open(a) + Open(b)
    decreases a
  {
    if a.End? {
      assert "" + Open(b) == Open(b);
    } else {
      OpenJoined(a.next, b);
      var p, s := PrintMember(a.key, a.value), Sep(a.value);
      Assoc(s, Open(a.next), Open(b));
      Assoc(p, s + Open(a.next), Open(b));
    }
  }

  lemma {:induction false} LastJoined(a: Members, b: Members)
    requires b.Member?
    ensures Joined(a, b).Member? && Last(Joined(a, b)) == Last(b)
    decreases a
  {
    if a.Member? { LastJoined(a.next, b); }
  }

  predicate AllObjects(members: Members) { members.Member? ==> members.value.Obj? && AllObjects(members.next) }

  lemma {:induction false} LastObject(members: Members)
    requires members.Member? && AllObjects(members)
    ensures Last(members).Obj?
  {
    if members.next.Member? { LastObject(members.next); }
  }

  // ---------- The buffer ----------

  function Aligned(n: nat): (m: nat)
    ensures n <= m < n + ALIGNMENT && m % ALIGNMENT == 0
  {
    (n + ALIGNMENT - 1) / ALIGNMENT * ALIGNMENT
  }

  /** The size stats_create_buf allocates, for the fields of the header and the pools. */
  function BufferSize(header: Members, pools: Members): nat { Aligned(1 + Size(header) + Size(pools) + 2) }

  class Buffer {
    const data: array<char>
    var len: nat

    ghost predicate Valid()
      reads this
    {
      len <= data.Length
    }

    ghost function Text(): string
      requires Valid()
      reads this, data
    {
      data[..len]
    }

    /** stats_create_buf. */
    constructor (header: Members, pools: Members)
      ensures Valid() && fresh(data) && data.Length == BufferSize(header, pools) && len == 0
    {
      data := new char[BufferSize(header, pools)](_ => ' ');
      len := 0;
    }

    /** nc_snprintf at the end of the text; it fails if no room is left for the text and two more bytes. */
    method Append(t: string) returns (ok: bool)
      requires Valid() && len < data.Length
      modifies this`len, data
      ensures Valid() && ok == (old(len) + |t| + 1 < data.Length)
      ensures ok ==> Text() == old(Text()) + t
      ensures !ok ==> Text() == old(Text())
    {
      var room := data.Length - len - 1;
      if |t| >= room { return false; }
      var i := 0;
      while i < |t|
        invariant 0 <= i <= |t| && len == old(len) && data[..len + i] == old(data[..len]) + t[..i]
      {
        data[len + i] := t[i];
        assert data[..len + i + 1] == data[..len + i] + [t[i]];
        i := i + 1;
      }
      assert t[..|t|] == t;
      len := len + |t|;
      ok := true;
    }

    /** stats_end_nesting: the separator at the end becomes a closing brace and a comma. */
    method EndNesting(ghost body: string, ghost v: Value) returns (ok: bool)
      requires Valid() && Text() == body + Sep(v) && body != "" && (v.Obj? ==> body[|body| - 1] == '}')
      modifies this`len, data
      ensures Valid() && ok == (v.Obj? ==> old(len) < data.Length) && (ok ==> Text() == body + "},")
    {
      ghost var text := Text();
      assert text[len - 2] == data[len - 2] && text[len - 1] == data[len - 1];
      if data[len - 2] == ',' {
        data[len - 2], data[len - 1] := '}', ',';
        assert data[..len] == body + "},";
      } else {
        if len == data.Length { return false; }
        data[len - 1], data[len] := '}', ',';
        len := len + 1;
        assert data[..len] == body + "},";
      }
      ok := true;
    }

    /** stats_add_footer: the last byte becomes a closing brace, and the line ends. */
    method Footer() returns (ok: bool)
      requires Valid() && 0 < len
      modifies this`len, data
      ensures Valid() && ok == (old(len) < data.Length)
      ensures ok ==> Text() == old(Text())[..old(len) - 1] + "}\n"
    {
      if len == data.Length { return false; }
      data[len - 1], data[len] := '}', '\n';
      len := len + 1;
      ok := true;
      assert data[..len] == old(Text())[..old(len) - 1] + "}\n";
    }

    /** The members of an object are written, each with its separator: stats_add_string, stats_add_num, and
        for an object stats_begin_nesting, its members and stats_end_nesting. */
    method Write(members: Members) returns (ok: bool)
      requires Valid() && Fine(members) && len + Size(members) + 2 <= data.Length
      modifies this`len, data
      ensures Valid() && ok && Text() == old(Text()) + Open(members) && len <= old(len) + Size(members)
      decreases members, 0
    {
      var m := members;
      ghost var start := Text();
      while m.Member?
        invariant Valid() && Fine(m) && (m == members || m < members)
        invariant Text() + Open(m) == start + Open(members) && len + Size(m) <= old(len) + Size(members)
        decreases m
      {
        ghost var was := Text();
        ok := WriteMember(m.key, m.value);
        assert ok;
        Assoc(was, PrintMember(m.key, m.value) + Sep(m.value), Open(m.next));
        Assoc(PrintMember(m.key, m.value), Sep(m.value), Open(m.next));
        m := m.next;
      }
      ok := true;
      assert Text() + "" == Text();
    }

    method WriteMember(k: string, v: Value) returns (ok: bool)
      requires Valid() && FineValue(v) && len + |k| + SizeOf(v) + EXTRA + 2 <= data.Length
      modifies this`len, data
      ensures Valid() && ok && Text() == old(Text()) + (PrintMember(k, v) + Sep(v))
      ensures len <= old(len) + |k| + SizeOf(v) + EXTRA
      decreases v, 1
    {
      MemberFits(k, v);
      match v {
        case Str(s) =>
          assert PrintMember(k, v) + Sep(v) == "\"" + k + "\":\"" + s + "\", ";
          ok := Append("\"" + k + "\":\"" + s + "\", ");
        case Num(n) =>
          assert PrintMember(k, v) + Sep(v) == "\"" + k + "\":" + Decimal(n) + ", ";
          ok := Append("\"" + k + "\":" + Decimal(n) + ", ");
        case Obj(ms) => ok := Nest(k, ms);
      }
    }

    /** An object inside another. */
    method Nest(k: string, ms: Members) returns (ok: bool)
      requires Valid() && FineValue(Obj(ms)) && len + |k| + Size(ms) + EXTRA + 2 <= data.Length
      modifies this`len, data
      ensures Valid() && ok && Text() == old(Text()) + (PrintMember(k, Obj(ms)) + Sep(Obj(ms)))
      ensures len <= old(len) + |k| + Size(ms) + EXTRA
      decreases ms, 1
    {
      ghost var start, head := Text(), "\"" + k + "\": {";
      MemberFits(k, Obj(ms));
      ok := Append("\"" + k + "\": {");
      assert ok;
      ok := Write(ms);
      OpenIs(ms);
      Assoc(start + head, PrintMembers(ms), Sep(Last(ms)));
      LastBrace(ms);
      ghost var body := start + head + PrintMembers(ms);
      ok := EndNesting(body, Last(ms));
      NestText(start, k, ms);
    }
  }

  /** An object behind its key. */
  lemma ObjectText(k: string, ms: Members)
    ensures PrintMember(k, Obj(ms)) == ("\"" + k + "\": {") + PrintMembers(ms) + "}"
  {
    var p := PrintMembers(ms);
    var head := "\"" + k + "\": {";
    assert "\": " + "{" == "\": {";
    Assoc("\": ", "{", p + "}");
    Assoc(k, "\": {", p + "}");
    Assoc("\"", k + "\": {", p + "}");
    Assoc("\"", k, "\": {");
    Assoc(head, p, "}");
  }

  lemma NestText(start: string, k: string, ms: Members)
    ensures start + ("\"" + k + "\": {") + PrintMembers(ms) + "}," == start + (PrintMember(k, Obj(ms)) + Sep(Obj(ms)))
  {
    var p, head := PrintMembers(ms), "\"" + k + "\": {";
    ObjectText(k, ms);
    assert "}" + "," == "},";
    Assoc(head + p, "}", ",");
    Assoc(start, head, p);
    Assoc(start, head + p, "},");
  }

  /** The members end with a brace if the last of them is an object. */
  lemma {:induction false} LastBrace(members: Members)
    requires members.Member?
    ensures var p := PrintMembers(members); p != "" && (Last(members).Obj? ==> p[|p| - 1] == '}')
    decreases members
  {
    var q := PrintMember(members.key, members.value);
    if members.next.Member? {
      LastBrace(members.next);
    } else {
      assert q + "" == q;
      if members.value.Obj? { ObjectText(members.key, members.value.members); }
    }
  }

  /** stats_make_rsp, into the buffer that stats_create_buf made. It never fails. With at least one pool the
      text is the object a recursive printer prints; without one a comma is left at its end. */
  method MakeResponse(buf: Buffer, header: Members, pools: Members) returns (ok: bool)
    requires buf.Valid() && buf.data.Length == BufferSize(header, pools)
    requires header.Member? && Fine(header) && Fine(pools) && AllObjects(pools)
    modifies buf, buf.data
    ensures buf.Valid() && ok
    ensures pools.Member? ==> buf.Text() == Print(Joined(header, pools)) + "\n"
    ensures pools.End? && !Last(header).Obj? ==> buf.Text() == "{" + PrintMembers(header) + ",}\n"
  {
    buf.data[0] := '{';
    buf.len := 1;
    assert buf.Text() == "{";
    ok := buf.Write(header);
    ok := buf.Write(pools);
    ghost var all := Joined(header, pools);
    OpenJoined(header, pools);
    Assoc("{", Open(header), Open(pools));
    ResponseText(header, pools);
    ok := buf.Footer();
  }

  lemma ResponseText(header: Members, pools: Members)
    requires header.Member? && AllObjects(pools)
    ensures var t := "{" + Open(Joined(header, pools));
      && (pools.Member? ==> t[..|t| - 1] + "}\n" == Print(Joined(header, pools)) + "\n")
      && (pools.End? && !Last(header).Obj? ==> t[..|t| - 1] + "}\n" == "{" + PrintMembers(header) + ",}\n")
  {
    var all := Joined(header, pools);
    var t, p := "{" + Open(all), PrintMembers(all);
    OpenIs(all);
    if pools.Member? {
      LastJoined(header, pools);
      LastObject(pools);
      assert t[..|t| - 1] == "{" + p;
      assert "{" + p + "}\n" == "{" + (p + "}") + "\n";
    } else {
      JoinedEnd(header);
      if !Last(header).Obj? {
        assert t[..|t| - 1] == "{" + p + ",";
        assert "{" + p + "," + "}\n" == "{" + p + ",}\n";
      }
    }
  }

  lemma {:induction false} JoinedEnd(a: Members)
    ensures Joined(a, End) == a
  {
    if a.Member? { JoinedEnd(a.next); }
  }
}
