/** JSON values as text: what print_value prints, parse_value reads back. */
module JsonText {
  import opened Basics
  import opened Bytes
  import opened JsonString

  /** cJSON, without numbers and raw items; the children of arrays and objects are linked lists. */
  datatype Json = Null | False | True | String(s: seq<byte>) | Array(items: Items) | Object(members: Members)
  datatype Items = NoItem | Item(value: Json, next: Items)
  datatype Members = NoMember | Member(name: seq<byte>, value: Json, next: Members)

  const NESTING_LIMIT: nat := 1000

  const NULL: seq<byte> := [110, 117, 108, 108]
  const FALSE: seq<byte> := [102, 97, 108, 115, 101]
  const TRUE: seq<byte> := [116, 114, 117, 101]
  const TAB: byte := 9
  const NEWLINE: byte := 10
  const SPACE: byte := 32
  const COMMA: byte := 44
  const COLON: byte := 58
  const OPEN_ARRAY: byte := 91
  const CLOSE_ARRAY: byte := 93
  const OPEN_OBJECT: byte := 123
  const CLOSE_OBJECT: byte := 125

  // ---------- Printing ----------

  function Tabs(n: nat): seq<byte> { seq(n, _ => TAB) }

  function Only(b: bool, s: seq<byte>): seq<byte> { if b then s else [] }

  /** print_value, at a depth of nesting. */
  function Print(j: Json, fmt: bool, depth: nat): seq<byte> {
    match j
    case Null => NULL
    case False => FALSE
    case True => TRUE
    case String(s) => Quoted(s)
    case Array(items) => [OPEN_ARRAY] + (PrintItems(items, fmt, depth + 1) + [CLOSE_ARRAY])
    case Object(members) =>
      [OPEN_OBJECT] + (Only(fmt, [NEWLINE])
        + (PrintMembers(members, fmt, depth + 1) + (Only(fmt, Tabs(depth)) + [CLOSE_OBJECT])))
  }

  function PrintItems(items: Items, fmt: bool, depth: nat): seq<byte> {
    match items
    case NoItem => []
    case Item(v, next) =>
      Print(v, fmt, depth) + (Only(next.Item?, [COMMA] + Only(fmt, [SPACE])) + PrintItems(next, fmt, depth))
  }

  function PrintMembers(members: Members, fmt: bool, depth: nat): seq<byte> {
    match members
    case NoMember => []
    case Member(name, v, next) =>
      Only(fmt, Tabs(depth)) + (Quoted(name) + ([COLON] + (Only(fmt, [TAB])
      + (Print(v, fmt, depth)
        + (Only(next.Member?, [COMMA]) + (Only(fmt, [NEWLINE]) + PrintMembers(next, fmt, depth)))))))
  }

  // ---------- Parsing ----------

  /** buffer_skip_whitespace, on a text without its terminating zero. */
  function Skip(s: seq<byte>): (r: seq<byte>)
    ensures |r| <= |s|
  {
    if s != [] && s[0] <= 32 then Skip(s[1..]) else s
  }

  predicate Starts(s: seq<byte>, w: seq<byte>) { |w| <= |s| && s[..|w|] == w }

  predicate At(s: seq<byte>, c: byte) { s != [] && s[0] == c }

  /** parse_value: the value and the text behind it. */
  function ParseValue(s: seq<byte>, depth: nat): (r: Option<(Json, seq<byte>)>)
    ensures r.Some? ==> |r.value.1| < |s|
    decreases |s|, 0
  {
    if Starts(s, NULL) then Some((Null, s[4..]))
    else if Starts(s, FALSE) then Some((False, s[5..]))
    else if Starts(s, TRUE) then Some((True, s[4..]))
    else if At(s, QUOTE) then
      match ParseString(s)
      case None => None
      case Some(x) => Some((String(x.0), x.1))
    else if At(s, OPEN_ARRAY) then ParseArray(s, depth)
    else if At(s, OPEN_OBJECT) then ParseObject(s, depth)
    else None
  }

  /** parse_array. */
  function ParseArray(s: seq<byte>, depth: nat): (r: Option<(Json, seq<byte>)>)
    requires At(s, OPEN_ARRAY)
    ensures r.Some? ==> |r.value.1| < |s|
    decreases |s[1..]|, 3
  {
    if depth >= NESTING_LIMIT then None
    else
      var t := Skip(s[1..]);
      if At(t, CLOSE_ARRAY) then Some((Array(NoItem), t[1..]))
      else
        match ParseItems(t, depth + 1)
        case None => None
        case Some(x) => Some((Array(x.0), x.1))
  }

  /** The loop of parse_array, up to the closing bracket. */
  function ParseItems(s: seq<byte>, depth: nat): (r: Option<(Items, seq<byte>)>)
    ensures r.Some? ==> |r.value.1| < |s|
    decreases |s|, 2
  {
    match ParseValue(s, depth)
    case None => None
    case Some(x) => MoreItems(x.0, Skip(x.1), depth)
  }

  /** An element was read; t follows it. */
  function MoreItems(v: Json, t: seq<byte>, depth: nat): (r: Option<(Items, seq<byte>)>)
    ensures r.Some? ==> |r.value.1| < |t|
    decreases |t|, 1
  {
    if At(t, COMMA) then
      match ParseItems(Skip(t[1..]), depth)
      case None => None
      case Some(y) => Some((Item(v, y.0), y.1))
    else if At(t, CLOSE_ARRAY) then Some((Item(v, NoItem), t[1..]))
    else None
  }

  /** parse_object. */
  function ParseObject(s: seq<byte>, depth: nat): (r: Option<(Json, seq<byte>)>)
    requires At(s, OPEN_OBJECT)
    ensures r.Some? ==> |r.value.1| < |s|
    decreases |s[1..]|, 3
  {
    if depth >= NESTING_LIMIT then None
    else
      var t := Skip(s[1..]);
      if At(t, CLOSE_OBJECT) then Some((Object(NoMember), t[1..]))
      else
        match ParseMembers(t, depth + 1)
        case None => None
        case Some(x) => Some((Object(x.0), x.1))
  }

  /** The loop of parse_object, up to the closing brace. */
  function ParseMembers(s: seq<byte>, depth: nat): (r: Option<(Members, seq<byte>)>)
    ensures r.Some? ==> |r.value.1| < |s|
    decreases |s|, 2
  {
    match ParseString(s)
    case None => None
    case Some(name) =>
      var c := Skip(name.1);
      if !At(c, COLON) then None
      else
        match ParseValue(Skip(c[1..]), depth)
        case None => None
        case Some(x) => MoreMembers(name.0, x.0, Skip(x.1), depth)
  }

  /** A member was read; t follows it. */
  function MoreMembers(name: seq<byte>, v: Json, t: seq<byte>, depth: nat): (r: Option<(Members, seq<byte>)>)
    ensures r.Some? ==> |r.value.1| < |t|
    decreases |t|, 1
  {
    if At(t, COMMA) then
      match ParseMembers(Skip(t[1..]), depth)
      case None => None
      case Some(y) => Some((Member(name, v, y.0), y.1))
    else if At(t, CLOSE_OBJECT) then Some((Member(name, v, NoMember), t[1..]))
    else None
  }

  /** skip_utf8_bom. */
  function SkipBom(s: seq<byte>): seq<byte> { if |s| >= 4 && s[..3] == [0xEF, 0xBB, 0xBF] then s[3..] else s }

  /** cJSON_Parse. */
  function Parse(s: seq<byte>): Option<Json> {
    match ParseValue(Skip(SkipBom(s)), 0)
    case None => None
    case Some(x) => Some(x.0)
  }
}
