/**
 The tunnel's addresses and packet rules (agent/src/capabilities/net_addressing.cpp and .hpp).  A
 32-bit word is a number below 2^32; a mask that keeps or clears low bits is a division.
 */
module NetAddressing {
  import opened Common

  type Word = w: int | 0 <= w < 0x1_0000_0000

  const WORDS := 0x1_0000_0000

  // ------------------------------------------------------------------ dotted addresses

  predicate IsDigit(c: char) { '0' <= c <= '9' }

  function Digit(c: char): (d: nat)
    requires IsDigit(c)
    ensures d < 10
  {
    c as int - '0' as int
  }

  function DigitChar(d: nat): (c: char)
    requires d < 10
    ensures IsDigit(c) && Digit(c) == d
  {
    ('0' as int + d) as char
  }

  predicate IsNumber(s: string) { s != "" && forall i :: 0 <= i < |s| ==> IsDigit(s[i]) }

  function Value(s: string): nat
    requires forall i :: 0 <= i < |s| ==> IsDigit(s[i])
  {
    if s == "" then 0 else 10 * Value(s[..|s| - 1]) + Digit(s[|s| - 1])
  }

  predicate IsOctet(s: string) { IsNumber(s) && Value(s) <= 255 }

  function Decimal(n: nat): (s: string)
    ensures IsNumber(s)
  {
    if n < 10 then [DigitChar(n)] else Decimal(n / 10) + [DigitChar(n % 10)]
  }

  /** No leading zero, but for zero itself. */
  predicate Canonical(s: string) { IsNumber(s) && (s[0] == '0' ==> |s| == 1) }

  lemma {:induction false} ValueOfDecimal(n: nat)
    ensures Value(Decimal(n)) == n && Canonical(Decimal(n)) && (n > 0 ==> Decimal(n)[0] != '0')
  {
    if n < 10 {
      assert Decimal(n)[..0] == "";
    } else {
      ValueOfDecimal(n / 10);
      assert Decimal(n)[..|Decimal(n)| - 1] == Decimal(n / 10);
    }
  }

  lemma {:induction false} DecimalOfValue(s: string)
    requires Canonical(s)
    ensures Decimal(Value(s)) == s && (s[0] != '0' ==> Value(s) > 0)
  {
    if |s| == 1 {
      assert s[..0] == "";
      assert s == [s[0]];
    } else {
      var init := s[..|s| - 1];
      DecimalOfValue(init);
      assert s == init + [s[|s| - 1]];
    }
  }

  /** Where a character first is, or the length. */
  function Until(s: string, c: char): (j: nat)
    ensures j <= |s| && (forall k :: 0 <= k < j ==> s[k] != c) && (j < |s| ==> s[j] == c)
  {
    if s == "" || s[0] == c then 0 else 1 + Until(s[1..], c)
  }

  function Segments(s: string): (r: seq<string>)
    ensures |r| >= 1
    decreases |s|
  {
    var j := Until(s, '.');
    if j == |s| then [s] else [s[..j]] + Segments(s[j + 1..])
  }

  function Join(segs: seq<string>): string
    requires |segs| >= 1
  {
    if |segs| == 1 then segs[0] else segs[0] + "." + Join(segs[1..])
  }

  function Quad(a: string, b: string, c: string, d: string): string { a + "." + (b + "." + (c + "." + d)) }

  /** The address a dotted text means: four numbers up to 255. */
  function Address(s: string): (r: Option<Word>) {
    var g := Segments(s);
    if |g| == 4 && IsOctet(g[0]) && IsOctet(g[1]) && IsOctet(g[2]) && IsOctet(g[3])
    then Some(Word4(Value(g[0]), Value(g[1]), Value(g[2]), Value(g[3])))
    else None
  }

  function Word4(a: Byte, b: Byte, c: Byte, d: Byte): Word { ((a * 256 + b) * 256 + c) * 256 + d }

  // The four bytes of a word, highest first.
  function Byte1(w: Word): Byte { w / 256 / 256 / 256 }
  function Byte2(w: Word): Byte { w / 256 / 256 % 256 }
  function Byte3(w: Word): Byte { w / 256 % 256 }
  function Byte4(w: Word): Byte { w % 256 }

  lemma BytesOfWord(a: Byte, b: Byte, c: Byte, d: Byte)
    ensures var w := Word4(a, b, c, d); Byte1(w) == a && Byte2(w) == b && Byte3(w) == c && Byte4(w) == d
  {
  }

  lemma WordOfBytes(w: Word)
    ensures Word4(Byte1(w), Byte2(w), Byte3(w), Byte4(w)) == w
  {
  }

  function Dotted(a: Word): string {
    Quad(Decimal(Byte1(a)), Decimal(Byte2(a)), Decimal(Byte3(a)), Decimal(Byte4(a)))
  }

  /** The digits at the front of `s`, as `std::from_chars` reads them into an unsigned number. */
  method ParseNumber(s: string) returns (r: Option<nat>)
    ensures r == if IsNumber(s) then Some(Value(s)) else None
  {
    if s == "" { return None; }
    var v := 0;
    for i := 0 to |s|
      invariant forall k :: 0 <= k < i ==> IsDigit(s[k])
      invariant v == Value(s[..i])
    {
      if !IsDigit(s[i]) { return None; }
      assert s[..i + 1][..i] == s[..i];
      v := 10 * v + Digit(s[i]);
    }
    assert s[..|s|] == s;
    return Some(v);
  }

  method ParseOctet(s: string) returns (r: Option<Byte>)
    ensures r == if IsOctet(s) then Some(Value(s)) else None
  {
    var v := ParseNumber(s);
    return if v.None? || v.value > 255 then None else Some(v.value);
  }

  function Shifted(out: Word, v: Byte): Word { (out * 256 + v) % WORDS }

  /** The first `k` numbers, shifted in one after another. */
  function Folded(g: seq<string>, k: nat): Word
    requires k <= |g| && forall m :: 0 <= m < k ==> IsOctet(g[m])
  {
    if k == 0 then 0 else assert IsOctet(g[k - 1]); Shifted(Folded(g, k - 1), Value(g[k - 1]))
  }

  lemma SegmentsLast(s: string)
    requires Until(s, '.') == |s|
    ensures Segments(s) == [s] && s[..Until(s, '.')] == s
  {
  }

  lemma FirstAndRest(first: string, rest: seq<string>)
    ensures ([first] + rest)[0] == first && ([first] + rest)[1..] == rest
  {
  }

  lemma SegmentsMore(s: string)
    requires Until(s, '.') < |s|
    ensures Segments(s) == [s[..Until(s, '.')]] + Segments(s[Until(s, '.') + 1..])
    ensures Segments(s)[0] == s[..Until(s, '.')] && Segments(s)[1..] == Segments(s[Until(s, '.') + 1..])
    ensures |Segments(s)| == 1 + |Segments(s[Until(s, '.') + 1..])|
  {
    FirstAndRest(s[..Until(s, '.')], Segments(s[Until(s, '.') + 1..]));
  }

  lemma ShiftedSmall(out: Word, v: Byte)
    requires out < 0x100_0000
    ensures Shifted(out, v) == out * 256 + v
  {
  }

  lemma ShiftedFour(a: Byte, b: Byte, c: Byte, d: Byte)
    ensures Shifted(Shifted(Shifted(Shifted(0, a), b), c), d) == Word4(a, b, c, d)
  {
    ShiftedSmall(0, a);
    ShiftedSmall(a, b);
    ShiftedSmall(a * 256 + b, c);
    ShiftedSmall((a * 256 + b) * 256 + c, d);
  }

  lemma FoldedNext(g: seq<string>, k: nat)
    requires k < |g| && forall m :: 0 <= m <= k ==> IsOctet(g[m])
    ensures Folded(g, 0) == 0 && Folded(g, k + 1) == Shifted(Folded(g, k), Value(g[k]))
  {
  }

  lemma FoldedFour(g: seq<string>)
    requires |g| == 4 && IsOctet(g[0]) && IsOctet(g[1]) && IsOctet(g[2]) && IsOctet(g[3])
    ensures Folded(g, 4) == Word4(Value(g[0]), Value(g[1]), Value(g[2]), Value(g[3]))
  {
    FoldedNext(g, 0);
    FoldedNext(g, 1);
    FoldedNext(g, 2);
    FoldedNext(g, 3);
    ShiftedFour(Value(g[0]), Value(g[1]), Value(g[2]), Value(g[3]));
  }

  lemma UntilAt(s: string, c: char, j: nat)
    requires j <= |s| && (forall k :: 0 <= k < j ==> s[k] != c) && (j < |s| ==> s[j] == c)
    ensures Until(s, c) == j
  {
  }

  /** The number at `i..j` of a text, up to the next dot or the end. */
  predicate NumberAt(s: string, i: nat, j: nat) {
    i <= j <= |s| && (forall k :: i <= k < j ==> s[k] != '.') && (j < |s| ==> s[j] == '.')
  }

  lemma NextDot(s: string, i: nat, j: nat)
    requires NumberAt(s, i, j)
    ensures Until(s[i..], '.') == j - i && s[i..][..j - i] == s[i..j]
    ensures j < |s| ==> s[i..][j - i + 1..] == s[j + 1..]
  {
    UntilAt(s[i..], '.', j - i);
  }

  /** From `i` on the text is the segments from `k` on. */
  ghost predicate AtSegment(s: string, i: nat, g: seq<string>, k: nat) {
    i <= |s| && k < |g| && g[k..] == Segments(s[i..])
  }

  lemma NextSegment(s: string, i: nat, j: nat, g: seq<string>, k: nat)
    requires AtSegment(s, i, g, k) && NumberAt(s, i, j)
    ensures g[k] == s[i..j]
    ensures j == |s| ==> |g| == k + 1
    ensures j < |s| ==> AtSegment(s, j + 1, g, k + 1)
  {
    NextDot(s, i, j);
    assert g[k] == g[k..][0] && |g| == k + |g[k..]|;
    if j == |s| {
      SegmentsLast(s[i..]);
    } else {
      SegmentsMore(s[i..]);
      assert g[k + 1..] == g[k..][1..];
    }
  }

  /** Where a character next is, or the length. */
  method FindChar(s: string, c: char, i: nat) returns (j: nat)
    requires i <= |s|
    ensures i <= j <= |s| && (forall k :: i <= k < j ==> s[k] != c) && (j < |s| ==> s[j] == c)
  {
    j := i;
    while j < |s| && s[j] != c
      invariant i <= j <= |s| && forall k :: i <= k < j ==> s[k] != c
    {
      j := j + 1;
    }
  }

  method ReadOctet(dotted: string, i: nat) returns (v: Option<Byte>, j: nat)
    requires i <= |dotted|
    ensures NumberAt(dotted, i, j) && v == if IsOctet(dotted[i..j]) then Some(Value(dotted[i..j])) else None
  {
    j := FindChar(dotted, '.', i);
    v := ParseOctet(dotted[i..j]);
  }

  method ParseAddress(dotted: string) returns (r: Option<Word>)
    ensures r == Address(dotted)
  {
    var out: Word, octets, i := 0, 0, 0;
    ghost var g := Segments(dotted);
    assert dotted[0..] == dotted;
    while true
      invariant AtSegment(dotted, i, g, octets)
      invariant (forall m :: 0 <= m < octets ==> IsOctet(g[m])) && out == Folded(g, octets)
      decreases |dotted| - i
    {
      var v, j := ReadOctet(dotted, i);
      NextSegment(dotted, i, j, g, octets);
      if v.None? { return None; }
      out, octets := Shifted(out, v.value), octets + 1;
      if j == |dotted| {
        if octets != 4 { return None; }
        FoldedFour(g);
        return Some(out);
      }
      i := j + 1;
    }
  }

  // ------------------------------------------------------------------ text and address are inverse

  lemma NoDots(s: string)
    requires IsNumber(s)
    ensures Until(s, '.') == |s|
  {
  }

  lemma SegmentsOf(a: string, t: string)
    requires IsNumber(a)
    ensures Segments(a + "." + t) == [a] + Segments(t)
  {
    var s := a + "." + t;
    assert forall k :: 0 <= k < |a| ==> s[k] == a[k];
    UntilAt(s, '.', |a|);
    assert s[..|a|] == a && s[|a| + 1..] == t;
  }

  lemma SegmentsOfThree(b: string, c: string, d: string)
    requires IsNumber(b) && IsNumber(c) && IsNumber(d)
    ensures Segments(b + "." + (c + "." + d)) == [b, c, d]
  {
    SegmentsOf(b, c + "." + d);
    SegmentsOf(c, d);
    NoDots(d);
    SegmentsLast(d);
  }

  lemma SegmentsOfFour(a: string, b: string, c: string, d: string)
    requires IsNumber(a) && IsNumber(b) && IsNumber(c) && IsNumber(d)
    ensures Segments(Quad(a, b, c, d)) == [a, b, c, d]
  {
    SegmentsOf(a, b + "." + (c + "." + d));
    SegmentsOfThree(b, c, d);
  }

  lemma AddressOfBytes(a: Byte, b: Byte, c: Byte, d: Byte)
    ensures Address(Quad(Decimal(a), Decimal(b), Decimal(c), Decimal(d))) == Some(Word4(a, b, c, d))
  {
    ValueOfDecimal(a);
    ValueOfDecimal(b);
    ValueOfDecimal(c);
    ValueOfDecimal(d);
    SegmentsOfFour(Decimal(a), Decimal(b), Decimal(c), Decimal(d));
  }

  /** Every one of the 2^32 addresses survives being written and read. */
  lemma AddressOfDotted(a: Word)
    ensures Address(Dotted(a)) == Some(a)
  {
    AddressOfBytes(Byte1(a), Byte2(a), Byte3(a), Byte4(a));
    WordOfBytes(a);
  }

  lemma SplitAt(s: string, j: nat)
    requires j < |s| && s[j] == '.'
    ensures s == s[..j] + "." + s[j + 1..]
  {
  }

  lemma {:induction false} JoinOfSegments(s: string)
    ensures Join(Segments(s)) == s
    decreases |s|
  {
    var j := Until(s, '.');
    if j == |s| {
      SegmentsLast(s);
    } else {
      SegmentsMore(s);
      JoinOfSegments(s[j + 1..]);
      SplitAt(s, j);
    }
  }

  lemma JoinFour(g: seq<string>)
    requires |g| == 4
    ensures Join(g) == Quad(g[0], g[1], g[2], g[3])
  {
    assert g[1..][1..] == g[2..] && g[2..][1..] == g[3..];
    assert Join(g[3..]) == g[3];
    assert Join(g[2..]) == g[2] + "." + g[3];
    assert Join(g[1..]) == g[1] + "." + (g[2] + "." + g[3]);
    assert Join(g) == g[0] + "." + (g[1] + "." + (g[2] + "." + g[3]));
  }

  /** A text that is read is written back the same exactly when no number in it has a leading zero. */
  lemma DottedOfAddress(s: string)
    requires Address(s).Some?
    ensures Dotted(Address(s).value) == s <==> forall i :: 0 <= i < 4 ==> Canonical(Segments(s)[i])
  {
    var g, a := Segments(s), Address(s).value;
    JoinOfSegments(s);
    JoinFour(g);
    BytesOfWord(Value(g[0]), Value(g[1]), Value(g[2]), Value(g[3]));
    var d := [Decimal(Value(g[0])), Decimal(Value(g[1])), Decimal(Value(g[2])), Decimal(Value(g[3]))];
    assert Dotted(a) == Quad(d[0], d[1], d[2], d[3]);
    SegmentsOfFour(d[0], d[1], d[2], d[3]);
    if Dotted(a) == s {
      forall i | 0 <= i < 4 ensures Canonical(g[i]) { ValueOfDecimal(Value(g[i])); assert g[i] == d[i]; }
    }
    if forall i :: 0 <= i < 4 ==> Canonical(g[i]) {
      DecimalOfValue(g[0]);
      DecimalOfValue(g[1]);
      DecimalOfValue(g[2]);
      DecimalOfValue(g[3]);
    }
  }

  // ------------------------------------------------------------------ blocks of addresses

  datatype Range = Range(base: Word, prefix: nat)

  function Pow2(n: nat): (p: nat)
    ensures p >= 1
  {
    if n == 0 then 1 else 2 * Pow2(n - 1)
  }

  function Size(r: Range): nat
    requires r.prefix <= 32
  {
    Pow2(32 - r.prefix)
  }

  /** What `parse_range` lets through: a prefix of 8 to 30 and a base on a block boundary. */
  predicate IsBlock(r: Range) { 8 <= r.prefix <= 30 && r.base % Size(r) == 0 }

  predicate Contains(r: Range, a: Word)
    requires r.prefix <= 32
  {
    a - a % Size(r) == r.base
  }

  /** The block a text means. */
  function Block(s: string): Option<Range> {
    var j := Until(s, '/');
    if j == |s| || Address(s[..j]).None? || !IsNumber(s[j + 1..]) then None
    else
      var r := Range(Address(s[..j]).value, Value(s[j + 1..]));
      if IsBlock(r) then Some(r) else None
  }

  function BlockText(r: Range): string { Dotted(r.base) + "/" + Decimal(r.prefix) }

  method ParseRange(cidr: string) returns (r: Option<Range>)
    ensures r == Block(cidr)
  {
    var slash := FindChar(cidr, '/', 0);
    UntilAt(cidr, '/', slash);
    if slash == |cidr| { return None; }
    var base := ParseAddress(cidr[..slash]);
    if base.None? { return None; }
    var prefix := ParseNumber(cidr[slash + 1..]);
    if prefix.None? || prefix.value < 8 || prefix.value > 30 { return None; }
    var block := Range(base.value, prefix.value);
    var aligned := OnBoundary(block);
    return if aligned then Some(block) else None;
  }

  method OnBoundary(r: Range) returns (aligned: bool)
    requires 8 <= r.prefix <= 30
    ensures aligned <==> IsBlock(r)
  {
    aligned := r.base % Size(r) == 0;
  }

  lemma NoSlash(a: Word)
    ensures forall k :: 0 <= k < |Dotted(a)| ==> Dotted(a)[k] != '/'
  {
  }

  /** Every block survives being written and read, and nothing but a block is read. */
  lemma BlockOfText(r: Range)
    ensures Block(BlockText(r)) == if IsBlock(r) then Some(r) else None
  {
    var s, n := BlockText(r), |Dotted(r.base)|;
    NoSlash(r.base);
    assert s[..n] == Dotted(r.base) && s[n + 1..] == Decimal(r.prefix) && s[n] == '/';
    assert forall k :: 0 <= k < n ==> s[k] == Dotted(r.base)[k];
    UntilAt(s, '/', n);
    AddressOfDotted(r.base);
    ValueOfDecimal(r.prefix);
  }

  function OperatorAddress(r: Range): Word { (r.base + 1) % WORDS }

  const RESERVED := 256

  /** `hash`: the first four bytes of the SHA-256 of the robot's id.  Arithmetic wraps at 32 bits. */
  function Derived(hash: Word, r: Range): Word
    requires r.prefix <= 32 && Size(r) != RESERVED + 1
  {
    SizeBounds(r);
    DerivedFrom(hash, r.base, Size(r))
  }

  function DerivedFrom(hash: Word, base: Word, size: nat): Word
    requires 1 <= size <= WORDS && size != RESERVED + 1
  {
    var usable := (size - RESERVED - 1) % WORDS;
    (base + RESERVED + hash % usable) % WORDS
  }

  lemma {:induction false} Pow2Grows(m: nat, n: nat)
    requires m <= n
    ensures Pow2(m) <= Pow2(n) && Pow2(n) % Pow2(m) == 0
    decreases n
  {
    if m < n {
      Pow2Grows(m, n - 1);
      var k := Pow2(n - 1) / Pow2(m);
      assert Pow2(n) == (2 * k) * Pow2(m);
      MultipleHasNoRest(2 * k, Pow2(m));
    } else {
      MultipleHasNoRest(1, Pow2(m));
    }
  }

  lemma MultiplesAscend(a: int, b: int, m: nat)
    ensures a <= b ==> a * m <= b * m
  {
  }

  lemma MultipleHasNoRest(k: nat, m: nat)
    requires m >= 1
    ensures k * m % m == 0
  {
    RestIsUnique(k * m, m, k, 0);
  }

  lemma RestIsUnique(x: int, m: nat, q: int, rest: nat)
    requires m >= 1 && x == q * m + rest && rest < m
    ensures x / m == q && x % m == rest
  {
    var d := x / m - q;
    assert d * m == rest - x % m;
    MultiplesAscend(1, d, m);
    MultiplesAscend(d, -1, m);
  }

  lemma SizeBounds(r: Range)
    requires r.prefix <= 32
    ensures 1 <= Size(r) <= WORDS && WORDS % Size(r) == 0
    ensures r.prefix <= 23 ==> Size(r) >= 512
    ensures r.prefix >= 24 ==> Size(r) <= 256
  {
    assert Pow2(8) == 256 && Pow2(9) == 512;
    Pow2Of32();
    Pow2Grows(32 - r.prefix, 32);
    if r.prefix <= 23 { Pow2Grows(9, 32 - r.prefix); } else { Pow2Grows(32 - r.prefix, 8); }
  }

  lemma Pow2Of32()
    ensures Pow2(32) == WORDS
  {
    assert Pow2(8) == 256;
    assert Pow2(16) == 0x1_0000;
    assert Pow2(24) == 0x100_0000;
  }

  lemma NextMultiple(q: nat, w: nat, m: nat)
    requires m >= 1 && q * m < w * m
    ensures (q + 1) * m <= w * m
  {
    MultiplesAscend(w, q, m);
    MultiplesAscend(q + 1, w, m);
  }

  lemma AlignedRoom(base: nat, top: nat, m: nat)
    requires m >= 1 && base % m == 0 && top % m == 0 && base < top
    ensures base + m <= top
  {
    var q, w := base / m, top / m;
    assert base == q * m && top == w * m;
    NextMultiple(q, w, m);
    assert (q + 1) * m == q * m + m;
  }

  lemma AlignedMembers(base: nat, m: nat, a: nat)
    requires m >= 1 && base % m == 0
    ensures a - a % m == base <==> base <= a < base + m
  {
    if base <= a < base + m {
      assert base == base / m * m;
      RestIsUnique(a, m, base / m, a - base);
    }
  }

  /** An aligned block ends by 2^32, and its members are the addresses from its base on. */
  lemma BlockMembers(r: Range, a: Word)
    requires IsBlock(r)
    ensures r.base + Size(r) <= WORDS
    ensures Contains(r, a) <==> r.base <= a < r.base + Size(r)
  {
    SizeBounds(r);
    AlignedRoom(r.base, WORDS, Size(r));
    AlignedMembers(r.base, Size(r), a);
  }

  lemma FromLarge(hash: Word, base: Word, size: nat)
    requires 512 <= size && base + size <= WORDS
    ensures DerivedFrom(hash, base, size) == base + RESERVED + hash % (size - RESERVED - 1) < base + size - 1
  {
    var usable := size - RESERVED - 1;
    assert usable % WORDS == usable;
    assert 0 <= hash % usable < usable;
  }

  lemma DerivedInLarge(hash: Word, r: Range)
    requires IsBlock(r) && r.prefix <= 23
    ensures Size(r) != RESERVED + 1
    ensures Derived(hash, r) == r.base + RESERVED + hash % (Size(r) - RESERVED - 1) < r.base + Size(r) - 1
  {
    SizeBounds(r);
    BlockMembers(r, r.base);
    FromLarge(hash, r.base, Size(r));
  }

  lemma SumWraps(sum: nat)
    requires sum < 2 * WORDS
    ensures sum % WORDS == if sum < WORDS then sum else sum - WORDS
  {
  }

  /** Where the number of usable addresses wraps, it is all but the few the reserved ones are too many. */
  lemma FromSmall(hash: Word, base: Word, size: nat)
    requires 1 <= size <= 256 && base + size <= WORDS
    ensures var usable := 0xFFFF_FEFF + size;
            var sum := base + RESERVED + (if hash < usable then hash else hash - usable);
            DerivedFrom(hash, base, size) == if sum < WORDS then sum else sum - WORDS
  {
    var usable := 0xFFFF_FEFF + size;
    RestIsUnique(size - RESERVED - 1, WORDS, -1, usable);
    if hash < usable { RestIsUnique(hash, usable, 0, hash); } else { RestIsUnique(hash, usable, 1, hash - usable); }
    SumWraps(base + RESERVED + (if hash < usable then hash else hash - usable));
  }

  /** The hashes that wrap around into a small block. */
  predicate Wraps(hash: Word, size: nat) { 0xFFFF_FF00 <= hash < 0xFFFF_FEFF + size }

  predicate WrapsInto(hash: Word, r: Range)
    requires r.prefix <= 32
  {
    Wraps(hash, Size(r))
  }

  /** And where in it they land. */
  lemma WrapsBack(hash: Word, base: Word, size: nat)
    requires 1 <= size <= 256 && base + size <= WORDS
    ensures var a := DerivedFrom(hash, base, size);
            if Wraps(hash, size) then a == base + (hash - 0xFFFF_FF00) else a < base || a >= base + size
  {
    FromSmall(hash, base, size);
  }

  lemma DerivedOffset(hash: Word, r: Range)
    requires IsBlock(r) && r.prefix >= 24
    ensures Size(r) != RESERVED + 1
    ensures WrapsInto(hash, r) ==> Derived(hash, r) == r.base + (hash - 0xFFFF_FF00)
    ensures !WrapsInto(hash, r) ==> Derived(hash, r) < r.base || Derived(hash, r) >= r.base + Size(r)
  {
    SizeBounds(r);
    BlockMembers(r, r.base);
    WrapsBack(hash, r.base, Size(r));
  }

  lemma AtLeastFour(r: Range)
    requires IsBlock(r)
    ensures Size(r) >= 4 && OperatorAddress(r) == r.base + 1
  {
    assert Pow2(2) == 4;
    Pow2Grows(2, 32 - r.prefix);
    BlockMembers(r, r.base);
  }

  /**
   When the derived address is in the block; when it is the operator's; that it is never the top one
   of its block; and that it is fit for use, so also outside the first 256 addresses, for every robot
   exactly in blocks of prefix 23 or less.
   */
  lemma DerivedIsFit(hash: Word, r: Range)
    requires IsBlock(r)
    ensures Size(r) != RESERVED + 1
    ensures var a := Derived(hash, r);
            && (Contains(r, a) <==> r.prefix <= 23 || WrapsInto(hash, r))
            && (a == OperatorAddress(r) <==> r.prefix >= 24 && hash == 0xFFFF_FF01)
            && (Contains(r, a) ==> a != r.base + Size(r) - 1)
            && (Contains(r, a) && a >= r.base + RESERVED && a != OperatorAddress(r) && a != r.base + Size(r) - 1
                <==> r.prefix <= 23)
  {
    AtLeastFour(r);
    SizeBounds(r);
    BlockMembers(r, Derived(hash, r));
    if r.prefix <= 23 { DerivedInLarge(hash, r); } else { DerivedOffset(hash, r); }
  }

  /** In a block of 256 the reserved addresses are all there are: the robot lands outside. */
  lemma DerivedMisses()
    ensures var r := Range(0x0A00_0000, 24);
            IsBlock(r) && Size(r) == 256 && Derived(0, r) == 0x0A00_0100 && !Contains(r, Derived(0, r))
  {
    assert Pow2(8) == 256;
  }

  datatype AddressConfig = Auto | Pinned(text: string)

  /** Both ends' addresses, or nothing when the configuration is refused. */
  function Resolved(hash: Word, range: string, address: AddressConfig): Option<(Word, Word)> {
    if Block(range).None? then None
    else
      var r := Block(range).value;
      assert Size(r) != RESERVED + 1 by { SizeBounds(r); }
      match address
      case Auto => Some((Derived(hash, r), OperatorAddress(r)))
      case Pinned(text) =>
        if Address(text).None? || !Contains(r, Address(text).value) || Address(text).value == OperatorAddress(r)
        then None
        else Some((Address(text).value, OperatorAddress(r)))
  }

  lemma OperatorIsMember(r: Range)
    requires IsBlock(r)
    ensures Contains(r, OperatorAddress(r)) && OperatorAddress(r) == r.base + 1
  {
    AtLeastFour(r);
    BlockMembers(r, OperatorAddress(r));
  }

  /**
   Of every configuration that is accepted: the operator's end is in the block; the two ends are the
   same address exactly for one hash in the blocks whose size wraps; and this end is outside the
   block exactly for a derived address there that does not wrap back into it.
   */
  lemma EndsDiffer(hash: Word, range: string, address: AddressConfig)
    requires Resolved(hash, range, address).Some?
    ensures var (self, peer) := Resolved(hash, range, address).value; var r := Block(range).value;
            && Contains(r, peer)
            && (self != peer <==> address.Pinned? || r.prefix <= 23 || hash != 0xFFFF_FF01)
            && (Contains(r, self) <==> address.Pinned? || r.prefix <= 23 || WrapsInto(hash, r))
  {
    OperatorIsMember(Block(range).value);
    if address.Auto? { DerivedIsFit(hash, Block(range).value); }
  }

  /** A pinned address is accepted exactly when it is one of the block's and not the operator's, and is then used. */
  lemma PinnedIsUsed(hash: Word, range: string, text: string)
    requires Block(range).Some?
    ensures var r, a := Block(range).value, Address(text);
            var fits := a.Some? && r.base <= a.value < r.base + Size(r) && a.value != r.base + 1;
            Resolved(hash, range, Pinned(text)) == if fits then Some((a.value, r.base + 1)) else None
  {
    var r := Block(range).value;
    OperatorIsMember(r);
    if Address(text).Some? { BlockMembers(r, Address(text).value); }
  }

  lemma ResolvedInBlock(hash: Word, r: Range)
    requires IsBlock(r)
    ensures Size(r) != RESERVED + 1 && Block(BlockText(r)) == Some(r)
    ensures Resolved(hash, BlockText(r), Auto) == Some((Derived(hash, r), OperatorAddress(r)))
  {
    SizeBounds(r);
    BlockOfText(r);
  }

  /** In 10.0.0.0/24 a robot with this hash is accepted with the operator's own address. */
  lemma EndsCollide(r: Range, hash: Word)
    requires r == Range(0x0A00_0000, 24) && hash == 0xFFFF_FF01
    ensures Resolved(hash, BlockText(r), Auto) == Some((0x0A00_0001, 0x0A00_0001))
  {
    assert Pow2(8) == 256;
    ResolvedInBlock(hash, r);
    DerivedOffset(hash, r);
    AtLeastFour(r);
  }

  /** The default block, 100.64.0.0/10, is accepted, and every robot has an address there. */
  lemma DefaultBlock(hash: Word, r: Range)
    requires r == Range(0x6440_0000, 10)
    ensures Block(BlockText(r)) == Some(r) && Resolved(hash, BlockText(r), Auto).Some?
    ensures var (self, peer) := Resolved(hash, BlockText(r), Auto).value;
            0x6440_0100 <= self < 0x647F_FFFF && peer == 0x6440_0001
  {
    assert Pow2(8) == 256;
    assert Pow2(16) == 0x1_0000;
    assert Size(r) == 0x40_0000;
    ResolvedInBlock(hash, r);
    DerivedInLarge(hash, r);
    AtLeastFour(r);
  }

  // ------------------------------------------------------------------ packets

  datatype View = View(ipv4: bool, src: Word, dst: Word, protocol: Byte, port: Option<nat>)

  const NOT_IPV4 := View(false, 0, 0, 0, None)

  function U16(hi: Byte, lo: Byte): nat { hi as int * 256 + lo as int }

  function Inspect(p: seq<Byte>): View {
    if |p| < 20 || p[0] / 16 != 4 then NOT_IPV4
    else
      var ihl := p[0] % 16 * 4;
      if ihl < 20 || ihl > |p| then NOT_IPV4
      else
        var first := U16(p[6], p[7]) % 0x2000 == 0;
        var port := if (p[9] == 6 || p[9] == 17) && first && |p| >= ihl + 4 then Some(U16(p[ihl + 2], p[ihl + 3]))
                    else None;
        View(true, Word4(p[12], p[13], p[14], p[15]), Word4(p[16], p[17], p[18], p[19]), p[9], port)
  }

  /** An IPv4 header, as section 3.1 of RFC 791 lays it out; `options` fills it to `words` words. */
  datatype Header = Header(words: nat, service: Byte, length: nat, ident: nat, flags: nat, fragment: nat,
                           ttl: Byte, protocol: Byte, checksum: nat, src: Word, dst: Word, options: seq<Byte>)

  predicate WellFormed(h: Header) {
    && 5 <= h.words <= 15 && |h.options| == 4 * h.words - 20
    && h.length < 0x1_0000 && h.ident < 0x1_0000 && h.checksum < 0x1_0000 && h.flags < 8 && h.fragment < 0x2000
  }

  function HeaderBytes(h: Header): (r: seq<Byte>)
    requires WellFormed(h)
    ensures |r| == 4 * h.words
  {
    FixedBytes(h) + h.options
  }

  function FixedBytes(h: Header): (r: seq<Byte>)
    requires WellFormed(h)
    ensures |r| == 20
  {
    [4 * 16 + h.words, h.service, h.length / 256, h.length % 256,
     h.ident / 256, h.ident % 256, h.flags * 32 + h.fragment / 256, h.fragment % 256,
     h.ttl, h.protocol, h.checksum / 256, h.checksum % 256,
     Byte1(h.src), Byte2(h.src), Byte3(h.src), Byte4(h.src),
     Byte1(h.dst), Byte2(h.dst), Byte3(h.dst), Byte4(h.dst)]
  }

  /** The port in a TCP or UDP header that begins `payload`, in a first fragment. */
  function PortOf(h: Header, payload: seq<Byte>): Option<nat> {
    if (h.protocol == 6 || h.protocol == 17) && h.fragment == 0 && |payload| >= 4
    then Some(U16(payload[2], payload[3]))
    else None
  }

  lemma FirstByte(words: nat)
    requires words < 16
    ensures (4 * 16 + words) / 16 == 4 && (4 * 16 + words) % 16 == words
  {
  }

  lemma FragmentOf(flags: nat, fragment: nat)
    requires flags < 8 && fragment < 0x2000
    ensures U16(flags * 32 + fragment / 256, fragment % 256) % 0x2000 == fragment
  {
    assert U16(flags * 32 + fragment / 256, fragment % 256) == flags * 0x2000 + fragment;
  }

  lemma HeaderAt(h: Header, payload: seq<Byte>)
    requires WellFormed(h)
    ensures var p := HeaderBytes(h) + payload;
            && |p| >= 20 && p[0] == 4 * 16 + h.words && p[6] == h.flags * 32 + h.fragment / 256
            && p[7] == h.fragment % 256
            && p[9] == h.protocol && Word4(p[12], p[13], p[14], p[15]) == h.src
            && Word4(p[16], p[17], p[18], p[19]) == h.dst
            && |p| == 4 * h.words + |payload| && forall i :: 0 <= i < |payload| ==> p[4 * h.words + i] == payload[i]
  {
    WordOfBytes(h.src);
    WordOfBytes(h.dst);
  }

  /** Whatever follows a well-formed header, the inspection finds its addresses, protocol and port. */
  lemma InspectsHeaders(h: Header, payload: seq<Byte>)
    requires WellFormed(h)
    ensures Inspect(HeaderBytes(h) + payload) == View(true, h.src, h.dst, h.protocol, PortOf(h, payload))
  {
    FirstByte(h.words);
    FragmentOf(h.flags, h.fragment);
    HeaderAt(h, payload);
  }

  function HeaderOf(p: seq<Byte>): Header
    requires Inspect(p).ipv4
  {
    Header(p[0] % 16, p[1], U16(p[2], p[3]), U16(p[4], p[5]), p[6] / 32, U16(p[6], p[7]) % 0x2000,
           p[8], p[9], U16(p[10], p[11]), Word4(p[12], p[13], p[14], p[15]), Word4(p[16], p[17], p[18], p[19]),
           p[20..p[0] % 16 * 4])
  }

  lemma U16Bytes(hi: Byte, lo: Byte)
    ensures U16(hi, lo) / 256 == hi && U16(hi, lo) % 256 == lo && U16(hi, lo) < 0x1_0000
  {
  }

  lemma HeaderIsWellFormed(p: seq<Byte>)
    requires Inspect(p).ipv4
    ensures WellFormed(HeaderOf(p)) && 4 * 16 + HeaderOf(p).words == p[0] && 20 <= 4 * HeaderOf(p).words <= |p|
  {
    U16Bytes(p[2], p[3]);
    U16Bytes(p[4], p[5]);
    U16Bytes(p[10], p[11]);
  }

  lemma FixedPart(p: seq<Byte>, h: Header)
    requires |p| >= 20 && WellFormed(h) && p[0] == 64 + h.words && p[1] == h.service
    requires h.length == U16(p[2], p[3]) && h.ident == U16(p[4], p[5]) && h.checksum == U16(p[10], p[11])
    requires h.flags == p[6] / 32 && h.fragment == U16(p[6], p[7]) % 0x2000 && h.ttl == p[8] && h.protocol == p[9]
    requires h.src == Word4(p[12], p[13], p[14], p[15]) && h.dst == Word4(p[16], p[17], p[18], p[19])
    ensures FixedBytes(h) == p[..20]
  {
    U16Bytes(p[2], p[3]);
    U16Bytes(p[4], p[5]);
    U16Bytes(p[10], p[11]);
    BytesOfWord(p[12], p[13], p[14], p[15]);
    BytesOfWord(p[16], p[17], p[18], p[19]);
    FlagsAndFragment(p[6], p[7]);
  }

  lemma InThree(p: seq<Byte>, i: nat, j: nat)
    requires i <= j <= |p|
    ensures p == p[..i] + p[i..j] + p[j..]
  {
  }

  /** And nothing else passes for IPv4: what does is a well-formed header and what follows it. */
  lemma OnlyHeadersPass(p: seq<Byte>)
    requires Inspect(p).ipv4
    ensures WellFormed(HeaderOf(p)) && p == HeaderBytes(HeaderOf(p)) + p[4 * HeaderOf(p).words..]
  {
    HeaderIsWellFormed(p);
    FixedPart(p, HeaderOf(p));
    InThree(p, 20, 4 * HeaderOf(p).words);
  }

  lemma FlagsAndFragment(hi: Byte, lo: Byte)
    ensures var f := U16(hi, lo) % 0x2000; hi == hi / 32 * 32 + f / 256 && lo == f % 256
  {
    assert U16(hi, lo) % 0x2000 == U16(hi % 32, lo);
  }

  // ------------------------------------------------------------------ the rules

  datatype Verdict = Allow | NotIPv4 | WrongDestination | WrongSource | PortNotAllowed

  predicate IsMulticast(a: Word) { a / 0x1000_0000 == 0xe }

  predicate PortPasses(v: View, ports: seq<nat>) { ports == [] || (v.port.Some? && v.port.value in ports) }

  /** Which packets pass: from the peer, and to this end on a port that is open, or to a group. */
  predicate Passes(v: View, dst: Word, src: Word, ports: seq<nat>) {
    v.ipv4 && v.src == src && (IsMulticast(v.dst) || (v.dst == dst && PortPasses(v, ports)))
  }

  method Check(v: View, dst: Word, src: Word, ports: seq<nat>) returns (r: Verdict)
    ensures r == Allow <==> Passes(v, dst, src, ports)
    ensures r == NotIPv4 <==> !v.ipv4
    ensures r == WrongDestination <==> v.ipv4 && !IsMulticast(v.dst) && v.dst != dst
    ensures r == WrongSource <==> v.ipv4 && (IsMulticast(v.dst) || v.dst == dst) && v.src != src
  {
    if !v.ipv4 { return NotIPv4; }
    if IsMulticast(v.dst) { return if v.src == src then Allow else WrongSource; }
    if v.dst != dst { return WrongDestination; }
    if v.src != src { return WrongSource; }
    if ports == [] { return Allow; }
    if v.port.None? { return PortNotAllowed; }
    for i := 0 to |ports|
      invariant v.port.value !in ports[..i]
    {
      if ports[i] == v.port.value { return Allow; }
    }
    assert ports[..|ports|] == ports;
    return PortNotAllowed;
  }

  /** 224.0.0.0/4 is all of it: from 224.0.0.0 to 239.255.255.255. */
  lemma MulticastGroups(a: Word)
    ensures IsMulticast(a) <==> 224 <= Byte1(a) <= 239
  {
    assert a / 0x100_0000 == Byte1(a);
  }
}
