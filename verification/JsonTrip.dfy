/** The round trip of JSON values through text. */
module JsonTrip {
  import opened Basics
  import opened Bytes
  import opened JsonString
  import opened JsonText

  // ---------- What the parser reads, kept behind quantifiers ----------

  ghost predicate Reads(s: seq<byte>, depth: nat, j: Json, rest: seq<byte>) {
    forall u :: Lock(0, u) ==> ParseValue(s, depth) == Some((j, rest))
  }

  ghost predicate ReadsItems(s: seq<byte>, depth: nat, items: Items, rest: seq<byte>) {
    forall u :: Lock(0, u) ==> ParseItems(s, depth) == Some((items, rest))
  }

  ghost predicate ReadsMembers(s: seq<byte>, depth: nat, members: Members, rest: seq<byte>) {
    forall u :: Lock(0, u) ==> ParseMembers(s, depth) == Some((members, rest))
  }

  lemma WordIs(w: seq<byte>, more: seq<byte>)
    ensures Starts(w + more, w) && (w + more)[|w|..] == more
  {
  }

  lemma ReadsWord(j: Json, more: seq<byte>, fmt: bool, depth: nat, d: nat)
    requires j.Null? || j.False? || j.True?
    ensures Reads(Print(j, fmt, d) + more, depth, j, more)
  {
    var w := Print(j, fmt, d);
    WordIs(w, more);
    assert (w + more)[0] == w[0];
    assert !j.Null? ==> (w + more)[..4][0] != NULL[0];
    assert j.True? ==> (w + more)[..1][0] != FALSE[0];
    if j.True? && |w + more| >= 5 { assert (w + more)[..5][0] == w[0]; }
  }

  lemma ReadsString(t: seq<byte>, more: seq<byte>, depth: nat)
    requires 0 !in t
    ensures Reads(Quoted(t) + more, depth, String(t), more)
  {
    var s := Quoted(t) + more;
    StringRoundTrip(t, more);
    assert s[0] == QUOTE;
    NoWord(s);
  }

  /** A text that does not start with a letter does not start with a word. */
  lemma NoWord(s: seq<byte>)
    requires s != [] && s[0] != 110 && s[0] != 102 && s[0] != 116
    ensures !Starts(s, NULL) && !Starts(s, FALSE) && !Starts(s, TRUE)
  {
    if |s| >= 4 { assert s[..4][0] == s[0]; }
    if |s| >= 5 { assert s[..5][0] == s[0]; }
  }

  lemma ReadsNoItems(t: seq<byte>, more: seq<byte>, depth: nat)
    requires depth < NESTING_LIMIT && Skip(t) == [CLOSE_ARRAY] + more
    ensures Reads([OPEN_ARRAY] + t, depth, Array(NoItem), more)
  {
    var s := [OPEN_ARRAY] + t;
    NoWord(s);
    assert s[1..] == t && ([CLOSE_ARRAY] + more)[1..] == more;
  }

  lemma ReadsArray(t: seq<byte>, items: Items, more: seq<byte>, depth: nat)
    requires depth < NESTING_LIMIT && !At(Skip(t), CLOSE_ARRAY) && ReadsItems(Skip(t), depth + 1, items, more)
    ensures Reads([OPEN_ARRAY] + t, depth, Array(items), more)
  {
    var s := [OPEN_ARRAY] + t;
    NoWord(s);
    assert s[1..] == t;
    assert Lock(0, 0);
  }

  lemma ReadsLastItem(s: seq<byte>, depth: nat, v: Json, rest: seq<byte>, more: seq<byte>)
    requires Reads(s, depth, v, rest) && Skip(rest) == [CLOSE_ARRAY] + more
    ensures ReadsItems(s, depth, Item(v, NoItem), more)
  {
    assert Lock(0, 0);
    assert ([CLOSE_ARRAY] + more)[1..] == more;
  }

  lemma ReadsMoreItems(s: seq<byte>, depth: nat, v: Json, rest: seq<byte>, t: seq<byte>, next: Items, more: seq<byte>)
    requires Reads(s, depth, v, rest) && Skip(rest) == [COMMA] + t && ReadsItems(Skip(t), depth, next, more)
    ensures ReadsItems(s, depth, Item(v, next), more)
  {
    CommaItems(v, t, depth, next, more);
    assert Lock(0, 0);
  }

  lemma CommaItems(v: Json, t: seq<byte>, depth: nat, next: Items, more: seq<byte>)
    requires ReadsItems(Skip(t), depth, next, more)
    ensures MoreItems(v, [COMMA] + t, depth) == Some((Item(v, next), more))
  {
    assert Lock(0, 0);
    assert ([COMMA] + t)[1..] == t;
  }

  lemma CommaMembers(name: seq<byte>, v: Json, t: seq<byte>, depth: nat, next: Members, more: seq<byte>)
    requires ReadsMembers(Skip(t), depth, next, more)
    ensures MoreMembers(name, v, [COMMA] + t, depth) == Some((Member(name, v, next), more))
  {
    assert Lock(0, 0);
    assert ([COMMA] + t)[1..] == t;
  }

  lemma ReadsNoMembers(t: seq<byte>, more: seq<byte>, depth: nat)
    requires depth < NESTING_LIMIT && Skip(t) == [CLOSE_OBJECT] + more
    ensures Reads([OPEN_OBJECT] + t, depth, Object(NoMember), more)
  {
    var s := [OPEN_OBJECT] + t;
    NoWord(s);
    assert s[1..] == t && ([CLOSE_OBJECT] + more)[1..] == more;
  }

  lemma ReadsObject(t: seq<byte>, members: Members, more: seq<byte>, depth: nat)
    requires depth < NESTING_LIMIT && !At(Skip(t), CLOSE_OBJECT) && ReadsMembers(Skip(t), depth + 1, members, more)
    ensures Reads([OPEN_OBJECT] + t, depth, Object(members), more)
  {
    var s := [OPEN_OBJECT] + t;
    NoWord(s);
    assert s[1..] == t;
    assert Lock(0, 0);
  }

  /** A member of an object: its name, the colon at the start of c, its value from v on. */
  lemma ReadsLastMember(s: seq<byte>, depth: nat, name: seq<byte>, c: seq<byte>, v: seq<byte>, value: Json,
                        rest: seq<byte>, more: seq<byte>)
    requires ParseString(s) == Some((name, c)) && Skip(c) == [COLON] + v && Reads(Skip(v), depth, value, rest)
    requires Skip(rest) == [CLOSE_OBJECT] + more
    ensures ReadsMembers(s, depth, Member(name, value, NoMember), more)
  {
    assert Lock(0, 0);
    assert ([COLON] + v)[1..] == v && ([CLOSE_OBJECT] + more)[1..] == more;
  }

  lemma ReadsMoreMembers(s: seq<byte>, depth: nat, name: seq<byte>, c: seq<byte>, v: seq<byte>, value: Json,
                         rest: seq<byte>, t: seq<byte>, next: Members, more: seq<byte>)
    requires ParseString(s) == Some((name, c)) && Skip(c) == [COLON] + v && Reads(Skip(v), depth, value, rest)
    requires Skip(rest) == [COMMA] + t && ReadsMembers(Skip(t), depth, next, more)
    ensures ReadsMembers(s, depth, Member(name, value, next), more)
  {
    CommaMembers(name, value, t, depth, next, more);
    NameThen(s, depth, name, c, v, value, rest);
  }

  lemma NameThen(s: seq<byte>, depth: nat, name: seq<byte>, c: seq<byte>, v: seq<byte>, value: Json, rest: seq<byte>)
    requires ParseString(s) == Some((name, c)) && Skip(c) == [COLON] + v && Reads(Skip(v), depth, value, rest)
    ensures ParseMembers(s, depth) == MoreMembers(name, value, Skip(rest), depth)
  {
    assert Lock(0, 0);
    assert ([COLON] + v)[1..] == v;
  }

  // ---------- White space ----------

  ghost predicate Blank(ws: seq<byte>) { forall i :: 0 <= i < |ws| ==> ws[i] <= 32 }

  lemma {:induction false} SkipBlank(ws: seq<byte>, x: seq<byte>)
    requires Blank(ws) && x != [] && x[0] > 32
    ensures Skip(ws + x) == x
  {
    if ws == [] {
      assert ws + x == x;
    } else {
      assert (ws + x)[1..] == ws[1..] + x;
      SkipBlank(ws[1..], x);
    }
  }

  lemma BlankTabs(fmt: bool, n: nat)
    ensures Blank(Only(fmt, Tabs(n)))
  {
  }

  lemma SkipNone(x: seq<byte>)
    requires x != [] && x[0] > 32
    ensures Skip(x) == x
  {
  }

  // ---------- Trees ----------

  /** No string in the tree holds a zero byte. */
  predicate Clean(j: Json) {
    match j
    case String(s) => 0 !in s
    case Array(items) => CleanItems(items)
    case Object(members) => CleanMembers(members)
    case _ => true
  }

  predicate CleanItems(items: Items) { items.Item? ==> Clean(items.value) && CleanItems(items.next) }

  predicate CleanMembers(members: Members) {
    members.Member? ==> 0 !in members.name && Clean(members.value) && CleanMembers(members.next)
  }

  function Max(a: nat, b: nat): nat { if a < b then b else a }

  /** How deep arrays and objects are nested. */
  function Nesting(j: Json): nat {
    match j
    case Array(items) => 1 + NestingItems(items)
    case Object(members) => 1 + NestingMembers(members)
    case _ => 0
  }

  function NestingItems(items: Items): nat {
    if items.NoItem? then 0 else Max(Nesting(items.value), NestingItems(items.next))
  }

  function NestingMembers(members: Members): nat {
    if members.NoMember? then 0 else Max(Nesting(members.value), NestingMembers(members.next))
  }

  /** A printed value starts with a letter, a quote or an opening bracket or brace. */
  lemma PrintFirst(j: Json, fmt: bool, depth: nat)
    ensures var p := Print(j, fmt, depth); p != [] && p[0] > 32 && p[0] != CLOSE_ARRAY && p[0] != CLOSE_OBJECT
  {
  }

  // ---------- The round trip ----------

  lemma {:induction false} Trip(j: Json, fmt: bool, d: nat, depth: nat, more: seq<byte>)
    requires Clean(j) && depth + Nesting(j) <= NESTING_LIMIT
    ensures Reads(Print(j, fmt, d) + more, depth, j, more)
    decreases j
  {
    match j
    case String(s) => ReadsString(s, more, depth);
    case Array(items) => TripArray(items, fmt, d, depth, more);
    case Object(members) => TripObject(members, fmt, d, depth, more);
    case _ => ReadsWord(j, more, fmt, depth, d);
  }

  lemma {:induction false} TripArray(items: Items, fmt: bool, d: nat, depth: nat, more: seq<byte>)
    requires CleanItems(items) && depth + 1 + NestingItems(items) <= NESTING_LIMIT
    ensures Reads(Print(Array(items), fmt, d) + more, depth, Array(items), more)
    decreases items, 1
  {
    var p, tail := PrintItems(items, fmt, d + 1), [CLOSE_ARRAY] + more;
    var t := p + tail;
    assert Print(Array(items), fmt, d) + more == [OPEN_ARRAY] + t;
    if items.NoItem? {
      assert t == tail;
      SkipNone(tail);
      ReadsNoItems(t, more, depth);
    } else {
      FirstOfItems(items, fmt, d + 1);
      assert t[0] == p[0];
      SkipNone(t);
      TripItems(items, fmt, d + 1, depth + 1, more);
      ReadsArray(t, items, more, depth);
    }
  }

  lemma FirstOfItems(items: Items, fmt: bool, depth: nat)
    requires items.Item?
    ensures var p := PrintItems(items, fmt, depth); p != [] && p[0] > 32 && p[0] != CLOSE_ARRAY
  {
    PrintFirst(items.value, fmt, depth);
  }

  /** The text of the items, one element at a time. */
  lemma {:induction false} ItemsText(items: Items, fmt: bool, d: nat, tail: seq<byte>)
    requires items.Item?
    ensures var x := Print(items.value, fmt, d);
      PrintItems(items, fmt, d) + tail ==
        if items.next.NoItem? then x + tail
        else x + ([COMMA] + (Only(fmt, [SPACE]) + (PrintItems(items.next, fmt, d) + tail)))
  {
    var x, sp, n := Print(items.value, fmt, d), Only(fmt, [SPACE]), PrintItems(items.next, fmt, d);
    if items.next.NoItem? {
      assert x + ([] + []) == x;
    } else {
      Assoc(x, [COMMA] + sp + n, tail);
      Assoc([COMMA] + sp, n, tail);
      Assoc([COMMA], sp, n + tail);
    }
  }

  lemma {:induction false} TripItems(items: Items, fmt: bool, d: nat, depth: nat, more: seq<byte>)
    requires items.Item? && CleanItems(items) && depth + NestingItems(items) <= NESTING_LIMIT
    ensures ReadsItems(PrintItems(items, fmt, d) + ([CLOSE_ARRAY] + more), depth, items, more)
    decreases items, 0
  {
    var v, next, tail := items.value, items.next, [CLOSE_ARRAY] + more;
    var x := Print(v, fmt, d);
    if next.NoItem? {
      ItemsText(items, fmt, d, tail);
      Trip(v, fmt, d, depth, tail);
      SkipNone(tail);
      ReadsLastItem(x + tail, depth, v, tail, more);
    } else {
      var n := PrintItems(next, fmt, d) + tail;
      var t := Only(fmt, [SPACE]) + n;
      var rest := [COMMA] + t;
      ItemsText(items, fmt, d, tail);
      Trip(v, fmt, d, depth, rest);
      SkipNone(rest);
      FirstOfItems(next, fmt, d);
      assert n[0] == PrintItems(next, fmt, d)[0];
      SkipBlank(Only(fmt, [SPACE]), n);
      TripItems(next, fmt, d, depth, more);
      ReadsMoreItems(x + rest, depth, v, rest, t, next, more);
    }
  }

  lemma {:induction false} TripObject(members: Members, fmt: bool, d: nat, depth: nat, more: seq<byte>)
    requires CleanMembers(members) && depth + 1 + NestingMembers(members) <= NESTING_LIMIT
    ensures Reads(Print(Object(members), fmt, d) + more, depth, Object(members), more)
    decreases members, 2
  {
    ObjectText(members, fmt, d, more);
    if members.NoMember? {
      EmptyObject(fmt, d, depth, more);
    } else {
      TripFullObject(members, fmt, d, depth, more);
    }
  }

  lemma {:induction false} TripFullObject(members: Members, fmt: bool, d: nat, depth: nat, more: seq<byte>)
    requires members.Member? && CleanMembers(members) && depth + 1 + NestingMembers(members) <= NESTING_LIMIT
    ensures Reads([OPEN_OBJECT] + (Only(fmt, [NEWLINE]) + (PrintMembers(members, fmt, d + 1)
                                                           + (Only(fmt, Tabs(d)) + ([CLOSE_OBJECT] + more)))),
                  depth, Object(members), more)
    decreases members, 1
  {
    var ws, p := Only(fmt, Tabs(d)), PrintMembers(members, fmt, d + 1);
    var tail := ws + ([CLOSE_OBJECT] + more);
    var q := MemberText(members, fmt, d + 1, tail);
    MembersText(members, fmt, d + 1, tail);
    BlankTabs(fmt, d);
    TripMembers(members, fmt, d + 1, depth + 1, ws, more);
    FullObject(fmt, d + 1, p + tail, q, members, more, depth);
  }

  lemma FullObject(fmt: bool, d: nat, p: seq<byte>, q: seq<byte>, members: Members, more: seq<byte>, depth: nat)
    requires q != [] && q[0] == QUOTE && p == Only(fmt, Tabs(d)) + q && depth < NESTING_LIMIT
    requires ReadsMembers(q, depth + 1, members, more)
    ensures Reads([OPEN_OBJECT] + (Only(fmt, [NEWLINE]) + p), depth, Object(members), more)
  {
    var nl, ws := Only(fmt, [NEWLINE]), Only(fmt, Tabs(d));
    Assoc(nl, ws, q);
    SkipBlank(nl + ws, q);
    ReadsObject(nl + p, members, more, depth);
  }

  lemma EmptyObject(fmt: bool, d: nat, depth: nat, more: seq<byte>)
    requires depth < NESTING_LIMIT
    ensures Reads([OPEN_OBJECT] + (Only(fmt, [NEWLINE]) + ([] + (Only(fmt, Tabs(d)) + ([CLOSE_OBJECT] + more)))),
                  depth, Object(NoMember), more)
  {
    var tail, nl := Only(fmt, Tabs(d)) + ([CLOSE_OBJECT] + more), Only(fmt, [NEWLINE]);
    assert [] + tail == tail;
    Assoc(nl, Only(fmt, Tabs(d)), [CLOSE_OBJECT] + more);
    SkipBlank(nl + Only(fmt, Tabs(d)), [CLOSE_OBJECT] + more);
    ReadsNoMembers(nl + tail, more, depth);
  }

  lemma {:induction false} ObjectText(members: Members, fmt: bool, d: nat, more: seq<byte>)
    ensures Print(Object(members), fmt, d) + more ==
      [OPEN_OBJECT] + (Only(fmt, [NEWLINE])
        + (PrintMembers(members, fmt, d + 1) + (Only(fmt, Tabs(d)) + ([CLOSE_OBJECT] + more))))
  {
    var nl, p, ts, e := Only(fmt, [NEWLINE]), PrintMembers(members, fmt, d + 1), Only(fmt, Tabs(d)), [CLOSE_OBJECT];
    Assoc(ts, e, more);
    Assoc(p, ts + e, more);
    Assoc(nl, p + (ts + e), more);
    Assoc([OPEN_OBJECT], nl + (p + (ts + e)), more);
  }

  /** The members and what follows them, without the blanks at the start. */
  function MemberText(members: Members, fmt: bool, d: nat, tail: seq<byte>): (q: seq<byte>)
    requires members.Member?
    ensures q != [] && q[0] == QUOTE
  {
    Quoted(members.name) + AfterName(members, fmt, d, tail)
  }

  function AfterName(members: Members, fmt: bool, d: nat, tail: seq<byte>): seq<byte>
    requires members.Member?
  {
    [COLON] + (Only(fmt, [TAB]) + (Print(members.value, fmt, d) + AfterValue(members, fmt, d, tail)))
  }

  function AfterValue(members: Members, fmt: bool, d: nat, tail: seq<byte>): seq<byte>
    requires members.Member?
  {
    Only(members.next.Member?, [COMMA]) + (Only(fmt, [NEWLINE]) + (PrintMembers(members.next, fmt, d) + tail))
  }

  lemma {:induction false} MembersText(members: Members, fmt: bool, d: nat, tail: seq<byte>)
    requires members.Member?
    ensures PrintMembers(members, fmt, d) + tail == Only(fmt, Tabs(d)) + MemberText(members, fmt, d, tail)
  {
    var x, n := Print(members.value, fmt, d), PrintMembers(members.next, fmt, d);
    Seven(Only(fmt, Tabs(d)), Quoted(members.name), [COLON], Only(fmt, [TAB]), x,
          Only(members.next.Member?, [COMMA]), Only(fmt, [NEWLINE]), n, tail);
  }

  lemma Seven(a: seq<byte>, b: seq<byte>, c: seq<byte>, d: seq<byte>, e: seq<byte>, f: seq<byte>, g: seq<byte>,
              h: seq<byte>, t: seq<byte>)
    ensures a + (b + (c + (d + (e + (f + (g + h)))))) + t == a + (b + (c + (d + (e + (f + (g + (h + t)))))))
  {
    Assoc(g, h, t);
    Assoc(f, g + h, t);
    Assoc(e, f + (g + h), t);
    Assoc(d, e + (f + (g + h)), t);
    Assoc(c, d + (e + (f + (g + h))), t);
    Assoc(b, c + (d + (e + (f + (g + h)))), t);
    Assoc(a, b + (c + (d + (e + (f + (g + h))))), t);
  }

  lemma {:induction false} TripMembers(members: Members, fmt: bool, d: nat, depth: nat, ws: seq<byte>, more: seq<byte>)
    requires members.Member? && CleanMembers(members) && depth + NestingMembers(members) <= NESTING_LIMIT && Blank(ws)
    ensures ReadsMembers(MemberText(members, fmt, d, ws + ([CLOSE_OBJECT] + more)), depth, members, more)
    decreases members, 0
  {
    var tail := ws + ([CLOSE_OBJECT] + more);
    var name, v, next := members.name, members.value, members.next;
    var s, c := MemberText(members, fmt, d, tail), AfterName(members, fmt, d, tail);
    var rest := AfterValue(members, fmt, d, tail);
    var nl, x := Only(fmt, [NEWLINE]), Only(fmt, [TAB]) + (Print(v, fmt, d) + rest);
    Trip(v, fmt, d, depth, rest);
    NameRead(members, fmt, d, tail);
    if next.NoMember? {
      assert [] + tail == tail && [] + (nl + tail) == nl + tail;
      Assoc(nl, ws, [CLOSE_OBJECT] + more);
      SkipBlank(nl + ws, [CLOSE_OBJECT] + more);
      ReadsLastMember(s, depth, name, c, x, v, rest, more);
    } else {
      var q := MemberText(next, fmt, d, tail);
      var t := nl + (PrintMembers(next, fmt, d) + tail);
      MembersText(next, fmt, d, tail);
      Assoc(nl, Only(fmt, Tabs(d)), q);
      SkipNone(rest);
      SkipBlank(nl + Only(fmt, Tabs(d)), q);
      TripMembers(next, fmt, d, depth, ws, more);
      ReadsMoreMembers(s, depth, name, c, x, v, rest, t, next, more);
    }
  }

  /** The name, the colon and the blanks before the value are read. */
  lemma NameRead(members: Members, fmt: bool, d: nat, tail: seq<byte>)
    requires members.Member? && 0 !in members.name
    ensures var c := AfterName(members, fmt, d, tail);
      var x := Print(members.value, fmt, d) + AfterValue(members, fmt, d, tail);
      && ParseString(MemberText(members, fmt, d, tail)) == Some((members.name, c))
      && Skip(c) == [COLON] + (Only(fmt, [TAB]) + x) && Skip(Only(fmt, [TAB]) + x) == x
  {
    var c, x := AfterName(members, fmt, d, tail), Print(members.value, fmt, d) + AfterValue(members, fmt, d, tail);
    StringRoundTrip(members.name, c);
    SkipNone(c);
    PrintFirst(members.value, fmt, d);
    assert x[0] == Print(members.value, fmt, d)[0];
    SkipBlank(Only(fmt, [TAB]), x);
  }

  // ---------- The limit on nesting ----------

  /** Whatever is parsed is nested within the limit. */
  lemma {:induction false} ParsedNesting(s: seq<byte>, depth: nat)
    requires depth <= NESTING_LIMIT
    ensures ParseValue(s, depth).Some? ==> depth + Nesting(ParseValue(s, depth).value.0) <= NESTING_LIMIT
    decreases |s|, 0
  {
    if !Starts(s, NULL) && !Starts(s, FALSE) && !Starts(s, TRUE) && depth < NESTING_LIMIT {
      if At(s, OPEN_ARRAY) { ParsedItems(Skip(s[1..]), depth + 1); }
      if At(s, OPEN_OBJECT) { ParsedMembers(Skip(s[1..]), depth + 1); }
    }
  }

  lemma {:induction false} ParsedItems(s: seq<byte>, depth: nat)
    requires depth <= NESTING_LIMIT
    ensures ParseItems(s, depth).Some? ==> depth + NestingItems(ParseItems(s, depth).value.0) <= NESTING_LIMIT
    decreases |s|, 1
  {
    ParsedNesting(s, depth);
    var x := ParseValue(s, depth);
    if x.Some? {
      var t := Skip(x.value.1);
      if At(t, COMMA) { ParsedItems(Skip(t[1..]), depth); }
    }
  }

  lemma {:induction false} ParsedMembers(s: seq<byte>, depth: nat)
    requires depth <= NESTING_LIMIT
    ensures ParseMembers(s, depth).Some? ==> depth + NestingMembers(ParseMembers(s, depth).value.0) <= NESTING_LIMIT
    decreases |s|, 1
  {
    var n := ParseString(s);
    if n.Some? {
      var c := Skip(n.value.1);
      if At(c, COLON) {
        ParsedNesting(Skip(c[1..]), depth);
        var x := ParseValue(Skip(c[1..]), depth);
        if x.Some? {
          var t := Skip(x.value.1);
          if At(t, COMMA) { ParsedMembers(Skip(t[1..]), depth); }
        }
      }
    }
  }

  /** A tree without zero bytes in its strings is parsed back from its printed form, formatted or not,
      exactly if it is nested at most 1000 deep. */
  lemma JsonRoundTrip(j: Json, fmt: bool)
    requires Clean(j)
    ensures Parse(Print(j, fmt, 0)) == Some(j) <==> Nesting(j) <= NESTING_LIMIT
  {
    var p := Print(j, fmt, 0);
    PrintFirst(j, fmt, 0);
    PrintPlain(j, fmt);
    if Nesting(j) <= NESTING_LIMIT {
      assert p + [] == p;
      Trip(j, fmt, 0, 0, []);
      assert Lock(0, 0);
    } else {
      ParsedNesting(p, 0);
    }
  }

  /** A printed value does not start with a byte order mark. */
  lemma PrintPlain(j: Json, fmt: bool)
    ensures SkipBom(Print(j, fmt, 0)) == Print(j, fmt, 0)
  {
    var p := Print(j, fmt, 0);
    if |p| >= 4 { assert p[..3][0] == p[0]; }
  }

  /** n arrays inside each other. */
  function Nested(n: nat): Json { if n == 0 then Null else Array(Item(Nested(n - 1), NoItem)) }

  lemma {:induction false} NestedDepth(n: nat)
    ensures Clean(Nested(n)) && Nesting(Nested(n)) == n
  {
    if n > 0 { NestedDepth(n - 1); }
  }

  /** An input on either side of the limit: it is printed, and parsed back up to a depth of 1000. */
  lemma NestedRoundTrip(n: nat, fmt: bool)
    ensures Parse(Print(Nested(n), fmt, 0)) == Some(Nested(n)) <==> n <= NESTING_LIMIT
  {
    NestedDepth(n);
    JsonRoundTrip(Nested(n), fmt);
  }
}
