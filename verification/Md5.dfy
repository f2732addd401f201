/** The MD5 context: hashing a message piece by piece gives the hash of the whole, as sections 3.1 to 3.5
    of RFC 1321 define it. The function that mixes one 64-byte block into the state is a parameter. */
module Md5 {
  import opened Bytes

  /** The four words of the state. */
  datatype Words = Words(a: nat, b: nat, c: nat, d: nat)

  type Mix = (Words, seq<byte>) -> Words

  const BLOCK: nat := 64
  const TWO29: nat := 0x2000_0000
  const TWO32: nat := 0x1_0000_0000
  const TWO64: nat := 0x1_0000_0000_0000_0000
  const INIT: Words := Words(0x67452301, 0xefcdab89, 0x98badcfe, 0x10325476)

  // ---------- The hash of a whole message ----------

  function Fold(f: Mix, st: Words, s: seq<byte>): Words
    requires |s| % BLOCK == 0
    decreases |s|
  {
    if s == [] then st else Fold(f, f(st, s[..BLOCK]), s[BLOCK..])
  }

  function Zeros(n: nat): seq<byte> { seq(n, _ => 0 as byte) }

  function Byte(x: nat): byte { (x % 256) as byte }

  /** The four low bytes of x, lowest first. */
  function Low4(x: nat): seq<byte> { [Byte(x), Byte(x / 0x100), Byte(x / 0x1_0000), Byte(x / 0x100_0000)] }

  /** A 64-bit number, lowest byte first. */
  function Low8(x: nat): seq<byte> { Low4(x) + Low4(x / TWO32) }

  /** How many zeros bring a message of n bytes, one more byte and the length to the end of a block. */
  function Fill(n: nat): (z: nat)
    ensures (n + 9 + z) % BLOCK == 0 && z < BLOCK
  {
    var r := n % BLOCK;
    assert n == n / BLOCK * BLOCK + r;
    if r <= 55 then 55 - r else 119 - r
  }

  /** One bit, zeros, and the length in bits modulo 2^64. */
  function Padding(n: nat): (p: seq<byte>)
    ensures |p| == 9 + Fill(n)
  {
    [0x80 as byte] + Zeros(Fill(n)) + Low8(8 * n % TWO64)
  }

  /** The number whose bytes are s, lowest first. */
  function Number(s: seq<byte>): nat {
    if s == [] then 0 else s[0] as nat + 256 * Number(s[1..])
  }

  lemma NumberFirst(b: byte, more: seq<byte>)
    ensures Number([b] + more) == b as nat + 256 * Number(more)
  {
    assert ([b] + more)[1..] == more;
  }

  lemma BytesSum(x: nat)
    ensures x % 256 + 256 * (x / 0x100 % 256) + 0x1_0000 * (x / 0x1_0000 % 256) + 0x100_0000 * (x / 0x100_0000 % 256)
      == x % TWO32
  {
    var b, c, d := x / 0x100, x / 0x1_0000, x / 0x100_0000;
    assert c == b / 256 && d == c / 256 && x / TWO32 == d / 256;
  }

  lemma NumberOf4(x: nat, more: seq<byte>)
    ensures Number(Low4(x) + more) == x % TWO32 + TWO32 * Number(more)
  {
    var a, b, c, d := Byte(x), Byte(x / 0x100), Byte(x / 0x1_0000), Byte(x / 0x100_0000);
    assert Low4(x) + more == [a] + ([b] + ([c] + ([d] + more)));
    NumberFirst(a, [b] + ([c] + ([d] + more)));
    NumberFirst(b, [c] + ([d] + more));
    NumberFirst(c, [d] + more);
    NumberFirst(d, more);
    BytesSum(x);
  }

  lemma NumberOf8(x: nat)
    requires x < TWO64
    ensures |Low8(x)| == 8 && Number(Low8(x)) == x
  {
    var high := x / TWO32;
    NumberOf4(x, Low4(high));
    assert Low4(high) + [] == Low4(high);
    NumberOf4(high, []);
    assert high < TWO32;
  }

  lemma LastOf(a: seq<byte>, b: seq<byte>)
    ensures (a + b)[|a + b| - |b|..] == b
  {
  }

  /** The padding of sections 3.1 and 3.2 of RFC 1321: a single one bit, then the fewest zeros that bring the
      whole to a multiple of the block length, then the length of the message in bits, lowest byte first. */
  lemma PaddingMeans(n: nat)
    ensures var p := Padding(n);
      && 9 <= |p| < 9 + BLOCK && (n + |p|) % BLOCK == 0
      && p[0] == 0x80 && (forall i :: 1 <= i < |p| - 8 ==> p[i] == 0)
      && Number(p[|p| - 8..]) == 8 * n % TWO64
  {
    var front, x := [0x80 as byte] + Zeros(Fill(n)), 8 * n % TWO64;
    NumberOf8(x);
    LastOf(front, Low8(x));
  }

  lemma WholeBlocks(d: nat, n: nat)
    requires d % BLOCK == 0
    ensures (d + n) % BLOCK == n % BLOCK && (n - n % BLOCK) % BLOCK == 0
  {
  }

  function Digest(w: Words): seq<byte> { Low4(w.a) + Low4(w.b) + Low4(w.c) + Low4(w.d) }

  /** The hash: the block function folded over the padded message. */
  function Hash(f: Mix, msg: seq<byte>): seq<byte> {
    Digest(Fold(f, INIT, msg + Padding(|msg|)))
  }

  lemma {:induction false} FoldStill(f: Mix, st: Words, s: seq<byte>)
    requires |s| % BLOCK == 0 && forall w, b :: f(w, b) == w
    ensures Fold(f, st, s) == st
    decreases |s|
  {
    if s != [] { FoldStill(f, st, s[BLOCK..]); }
  }

  /** Blocks that change nothing leave the state of section 3.3 of RFC 1321, which is put out lowest byte first
      as section 3.5 says. */
  lemma InitialDigest(f: Mix, msg: seq<byte>)
    requires forall w, b :: f(w, b) == w
    ensures Hash(f, msg) ==
      [0x01, 0x23, 0x45, 0x67, 0x89, 0xab, 0xcd, 0xef, 0xfe, 0xdc, 0xba, 0x98, 0x76, 0x54, 0x32, 0x10]
  {
    FoldStill(f, INIT, msg + Padding(|msg|));
    assert Low4(0x67452301) == [0x01, 0x23, 0x45, 0x67];
    assert Low4(0xefcdab89) == [0x89, 0xab, 0xcd, 0xef];
    assert Low4(0x98badcfe) == [0xfe, 0xdc, 0xba, 0x98];
    assert Low4(0x10325476) == [0x76, 0x54, 0x32, 0x10];
  }

  lemma {:induction false} FoldConcat(f: Mix, st: Words, a: seq<byte>, b: seq<byte>)
    requires |a| % BLOCK == 0 && |b| % BLOCK == 0
    ensures Fold(f, st, a + b) == Fold(f, Fold(f, st, a), b)
    decreases |a|
  {
    if a == [] {
      assert a + b == b;
    } else {
      assert (a + b)[..BLOCK] == a[..BLOCK] && (a + b)[BLOCK..] == a[BLOCK..] + b;
      FoldConcat(f, f(st, a[..BLOCK]), a[BLOCK..], b);
    }
  }

  // ---------- Arithmetic of the counters ----------

  /** The 29 low bits and the 32 bits above them of a byte count. */
  ghost predicate Counts(n: nat, lo: nat, hi: nat) { lo == n % TWO29 && hi == n / TWO29 % TWO32 }

  lemma CountMore(n: nat, lo: nat, hi: nat, size: nat)
    requires Counts(n, lo, hi)
    ensures var lo' := (lo + size) % TWO29;
      Counts(n + size, lo', (hi + (if lo' < lo then 1 else 0) + size / TWO29) % TWO32)
  {
    var q, x, y := n / TWO29, size / TWO29, size % TWO29;
    assert n == q * TWO29 + lo && size == x * TWO29 + y;
    var c := if lo + y >= TWO29 then 1 else 0;
    assert lo + size == (x + c) * TWO29 + (lo + y - c * TWO29);
    Quotient(lo + size, x + c, lo + y - c * TWO29);
    assert n + size == (q + x + c) * TWO29 + (lo + y - c * TWO29);
    Quotient(n + size, q + x + c, lo + y - c * TWO29);
    ModAdd(q, x + c);
  }

  lemma Quotient(n: nat, q: nat, r: nat)
    requires n == q * TWO29 + r && r < TWO29
    ensures n / TWO29 == q && n % TWO29 == r
  {
  }

  lemma ModAdd(q: nat, x: nat)
    ensures (q % TWO32 + x) % TWO32 == (q + x) % TWO32
  {
  }

  lemma CountBlock(n: nat, lo: nat, hi: nat)
    requires Counts(n, lo, hi)
    ensures lo % BLOCK == n % BLOCK
  {
    assert n == n / TWO29 * TWO29 + lo;
  }

  /** The counters hold the length in bits modulo 2^64: eight times lo below, hi above. */
  lemma CountBits(n: nat, lo: nat, hi: nat)
    requires Counts(n, lo, hi)
    ensures Low8(8 * n % TWO64) == Low4(8 * lo) + Low4(hi)
  {
    var q := n / TWO29;
    var k := q / TWO32;
    assert n == q * TWO29 + lo && q == k * TWO32 + hi;
    var v := hi * TWO32 + 8 * lo;
    assert 8 * n == k * TWO64 + v;
    Rest64(k, v);
    High(hi, 8 * lo);
    LowBytes(hi, 8 * lo);
  }

  lemma Rest64(k: nat, v: nat)
    requires v < TWO64
    ensures (k * TWO64 + v) % TWO64 == v
  {
  }

  lemma High(h: nat, x: nat)
    requires x < TWO32
    ensures (h * TWO32 + x) / TWO32 == h
  {
  }

  lemma LowByte(h: nat, x: nat, e: nat)
    requires e > 0
    ensures Byte((h * 256 * e + x) / e) == Byte(x / e)
  {
    assert h * 256 * e + x == (h * 256) * e + x;
    Div(h * 256, x, e);
    assert (h * 256 + x / e) % 256 == x / e % 256;
  }

  lemma Div(a: nat, x: nat, e: nat)
    requires e > 0
    ensures (a * e + x) / e == a + x / e
  {
    var q, r := x / e, x % e;
    assert x == q * e + r;
    assert a * e + x == (a + q) * e + r;
    Unique((a + q) * e + r, a + q, r, e);
  }

  lemma Unique(n: nat, q: nat, r: nat, e: nat)
    requires e > 0 && n == q * e + r && r < e
    ensures n / e == q
  {
    var p, s := n / e, n % e;
    assert n == p * e + s && s < e;
    Steps(p, q, e);
    Steps(q, p, e);
  }

  lemma Steps(p: nat, q: nat, e: nat)
    ensures p < q ==> p * e + e <= q * e
  {
    if p < q { assert (p + 1) * e <= q * e; }
  }

  lemma LowBytes(h: nat, x: nat)
    requires x < TWO32
    ensures Low4(h * TWO32 + x) == Low4(x)
  {
    LowByte(h * 0x100_0000, x, 1);
    LowByte(h * 0x1_0000, x, 0x100);
    LowByte(h * 0x100, x, 0x1_0000);
    LowByte(h, x, 0x100_0000);
  }

  // ---------- The context ----------

  /** MD5_CTX; `msg` is what went in so far, and `done` the part of it that is mixed in. */
  class Context {
    const f: Mix
    var st: Words
    var lo: nat
    var hi: nat
    const buffer: array<byte>
    ghost var msg: seq<byte>
    ghost var done: seq<byte>

    ghost predicate Valid()
      reads this, buffer
    {
      && buffer.Length == BLOCK && Counts(|msg|, lo, hi) && lo < TWO29
      && |done| % BLOCK == 0 && st == Fold(f, INIT, done)
      && msg == done + buffer[..lo % BLOCK]
    }

    /** MD5_Init. */
    constructor (f: Mix)
      ensures Valid() && fresh(buffer) && msg == [] && this.f == f
    {
      this.f := f;
      st, lo, hi, msg, done := INIT, 0, 0, [], [];
      buffer := new byte[BLOCK](_ => 0 as byte);
    }

    /** memcpy into the buffer. */
    method Copy(at: nat, data: seq<byte>)
      requires buffer.Length == BLOCK && at + |data| <= BLOCK
      modifies buffer
      ensures buffer[..at + |data|] == old(buffer[..at]) + data
    {
      var i := 0;
      while i < |data|
        invariant 0 <= i <= |data| && buffer[..at + i] == old(buffer[..at]) + data[..i]
      {
        buffer[at + i] := data[i];
        assert buffer[..at + i + 1] == buffer[..at + i] + [data[i]];
        i := i + 1;
      }
      assert data[..|data|] == data;
    }

    /** body, on the blocks of data. */
    method Body(data: seq<byte>)
      requires |data| % BLOCK == 0
      modifies this`st
      ensures st == Fold(f, old(st), data)
    {
      var i := 0;
      assert data[0..] == data;
      while i < |data|
        invariant 0 <= i <= |data| && i % BLOCK == 0 && Fold(f, st, data[i..]) == Fold(f, old(st), data)
      {
        assert data[i..][..BLOCK] == data[i..i + BLOCK] && data[i..][BLOCK..] == data[i + BLOCK..];
        st := f(st, data[i..i + BLOCK]);
        i := i + BLOCK;
      }
    }

    /** Whole blocks are mixed in. */
    method Absorb(data: seq<byte>)
      requires |data| % BLOCK == 0 && |done| % BLOCK == 0 && st == Fold(f, INIT, done)
      modifies this`st, this`done
      ensures done == old(done) + data && |done| % BLOCK == 0 && st == Fold(f, INIT, done)
    {
      FoldConcat(f, INIT, done, data);
      Body(data);
      done := done + data;
    }

    /** The byte count in its two words. */
    method Count(size: nat, ghost n: nat)
      requires Counts(n, lo, hi)
      modifies this`lo, this`hi
      ensures Counts(n + size, lo, hi) && lo < TWO29
    {
      CountMore(n, lo, hi, size);
      var saved := lo;
      lo := (saved + size) % TWO29;
      if lo < saved { hi := (hi + 1) % TWO32; }
      hi := (hi + size / TWO29) % TWO32;
    }

    /** MD5_Update. */
    method Update(data: seq<byte>)
      requires Valid()
      modifies this, buffer
      ensures Valid() && msg == old(msg) + data
    {
      var used := lo % BLOCK;
      Count(|data|, |msg|);
      msg := msg + data;
      CountBlock(|msg|, lo, hi);
      Take(used, data);
    }

    ghost predicate Mixed()
      reads this
    {
      |done| % BLOCK == 0 && st == Fold(f, INIT, done)
    }

    /** The data goes through the buffer, of which the first `used` bytes are taken. */
    method Take(used: nat, data: seq<byte>)
      requires buffer.Length == BLOCK && used < BLOCK && Mixed() && msg == done + buffer[..used] + data
      modifies this`st, this`done, buffer
      ensures Mixed() && msg == done + buffer[..|msg| % BLOCK]
    {
      if used != 0 {
        var free := BLOCK - used;
        if |data| < free {
          Copy(used, data);
          assert |msg| % BLOCK == used + |data|;
        } else {
          TopUp(used, data[..free]);
          assert data == data[..free] + data[free..];
          TakeRest(data[free..]);
        }
      } else {
        assert buffer[..0] == [];
        TakeRest(data);
      }
    }

    /** The buffer is filled up and mixed in. */
    method TopUp(used: nat, head: seq<byte>)
      requires buffer.Length == BLOCK && used + |head| == BLOCK && Mixed()
      modifies this`st, this`done, buffer
      ensures Mixed() && done == old(done) + (old(buffer[..used]) + head)
    {
      Copy(used, head);
      assert buffer[..] == buffer[..BLOCK];
      Absorb(buffer[..]);
    }

    /** Whole blocks are mixed in directly, and what is left goes to the start of the buffer. */
    method TakeRest(data: seq<byte>)
      requires buffer.Length == BLOCK && Mixed() && msg == done + data
      modifies this`st, this`done, buffer
      ensures Mixed() && msg == done + buffer[..|msg| % BLOCK]
    {
      var n := |data| - |data| % BLOCK;
      WholeBlocks(|done|, |data|);
      assert |msg| % BLOCK == |data| - n;
      var rest := data[n..];
      assert data == data[..n] + rest && |rest| == |data| - n;
      if |data| >= BLOCK { Absorb(data[..n]); }
      Copy(0, rest);
    }

    /** If the length does not fit into the block that was begun, zeros complete that block. */
    method Spill(used: nat) returns (used': nat, ghost z: nat)
      requires buffer.Length == BLOCK && 0 < used <= BLOCK && Mixed()
      modifies this`st, this`done, buffer
      ensures Mixed() && used' <= BLOCK - 8 && z + (BLOCK - 8 - used') < BLOCK
      ensures done + buffer[..used'] == old(done + buffer[..used]) + Zeros(z)
    {
      used', z := used, 0;
      var free := BLOCK - used;
      if free < 8 {
        TopUp(used, Zeros(free));
        used', z := 0, free;
        assert buffer[..0] == [];
      }
    }

    /** MD5_Final. */
    method Final() returns (result: seq<byte>)
      requires Valid()
      modifies this, buffer
      ensures result == Hash(f, old(msg))
    {
      var used := lo % BLOCK;
      CountBits(|msg|, lo, hi);
      ghost var tail := buffer[..used];
      buffer[used] := 0x80 as byte;
      assert buffer[..used + 1] == tail + [0x80 as byte];
      ghost var z;
      used, z := Spill(used + 1);
      FinishPadding(used, z);
      result := Digest(st);
      st, lo, hi := Words(0, 0, 0, 0), 0, 0;
      Copy(0, Zeros(BLOCK));
    }

    /** The last block: zeros and the length in bits. */
    method FinishPadding(used: nat, ghost z: nat)
      requires buffer.Length == BLOCK && Mixed() && used <= BLOCK - 8 && z + (BLOCK - 8 - used) < BLOCK
      requires done + buffer[..used] == msg + [0x80 as byte] + Zeros(z)
      requires Low8(8 * |msg| % TWO64) == Low4(8 * lo) + Low4(hi)
      modifies this`st, this`done, buffer
      ensures st == Fold(f, INIT, msg + Padding(|msg|))
    {
      ghost var n, length := BLOCK - 8 - used, Low4(8 * lo) + Low4(hi);
      ghost var head := buffer[..used];
      Copy(used, Zeros(BLOCK - 8 - used));
      TopUp(BLOCK - 8, Low4(8 * lo) + Low4(hi));
      assert done == old(done) + (head + Zeros(n) + length);
      Regroup(old(done), head, msg, [0x80 as byte], z, n, length);
      FillIs(|msg|, z + n, |done|);
    }
  }

  lemma Regroup(done: seq<byte>, head: seq<byte>, msg: seq<byte>, one: seq<byte>, z: nat, n: nat, length: seq<byte>)
    requires done + head == msg + one + Zeros(z)
    ensures done + (head + Zeros(n) + length) == msg + (one + Zeros(z + n) + length)
  {
    assert Zeros(z + n) == Zeros(z) + Zeros(n);
    assert done + (head + Zeros(n) + length) == (done + head) + (Zeros(n) + length);
    assert msg + (one + (Zeros(z) + Zeros(n)) + length) == (msg + one + Zeros(z)) + (Zeros(n) + length);
  }

  lemma FillIs(n: nat, z: nat, total: nat)
    requires total == n + 9 + z && total % BLOCK == 0 && z < BLOCK
    ensures z == Fill(n)
  {
  }

  function Flatten(parts: seq<seq<byte>>): seq<byte> {
    if parts == [] then [] else Flatten(parts[..|parts| - 1]) + parts[|parts| - 1]
  }

  /** However a message is split, the pieces give the hash of the whole. */
  method HashParts(f: Mix, parts: seq<seq<byte>>) returns (result: seq<byte>)
    ensures result == Hash(f, Flatten(parts))
  {
    var ctx := new Context(f);
    var i := 0;
    while i < |parts|
      invariant 0 <= i <= |parts| && ctx.Valid() && ctx.f == f && fresh(ctx) && fresh(ctx.buffer)
        && ctx.msg == Flatten(parts[..i])
    {
      assert parts[..i + 1][..i] == parts[..i];
      ctx.Update(parts[i]);
      i := i + 1;
    }
    assert parts[..|parts|] == parts;
    result := ctx.Final();
  }
}
