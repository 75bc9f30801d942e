/** The hash that identifies a link: BKDR_hash of the ip plus the port, in wrapping 32-bit arithmetic. */
module LinkHash {
  import opened Prelude
  import opened Frames

  /** A char of a std::string, signed. */
  type Char8 = c: int | -128 <= c < 128

  const M := 0x1_0000_0000
  const BASE := 131

  /** The int a wide value wraps to. */
  function Wrap(x: int): Int32 {
    var m := x % M;
    if m >= 0x8000_0000 then m - M else m
  }

  function Pow(n: nat): int {
    if n == 0 then 1 else BASE * Pow(n - 1)
  }

  /** The polynomial with coefficients str and base 131, highest power first. */
  function Poly(str: seq<Char8>): int {
    if str == [] then 0 else str[0] * Pow(|str| - 1) + Poly(str[1..])
  }

  /** One turn of the loop, in plain numbers: the hash of str followed by c is 131 times the hash of str, plus c,
      modulo 2^32, as a signed 32-bit int. */
  lemma HashStep(str: seq<Char8>, c: Char8)
    ensures Wrap(Poly([])) == 0
    ensures var h, h' := Wrap(Poly(str)), Wrap(Poly(str + [c]));
            (h * 131 + c - h') % 4294967296 == 0 && -2147483648 <= h' <= 2147483647
  {
    PolySnoc(str, c);
    WrapMod(Poly(str), c);
  }

  lemma PolySnoc(str: seq<Char8>, c: Char8)
    ensures Poly(str + [c]) == Poly(str) * 131 + c
  {
    PolyConcat(str, [c]);
    assert Pow(1) == BASE * Pow(0) == 131;
    assert Poly([c]) == c * Pow(0) + Poly([c][1..]);
  }

  lemma WrapMod(x: int, c: int)
    ensures (Wrap(x) * 131 + c - Wrap(x * 131 + c)) % 4294967296 == 0
  {
    var p, q := (x - Wrap(x)) / M, (x * 131 + c - Wrap(x * 131 + c)) / M;
    assert x == Wrap(x) + M * p && x * 131 + c == Wrap(x * 131 + c) + M * q;
    assert Wrap(x) * 131 + c - Wrap(x * 131 + c) == M * (q - 131 * p);
  }

  lemma WrapExact(a: int, b: int)
    ensures Wrap(a) == Wrap(b) <==> (a - b) % M == 0
  {
  }

  lemma WrapAbsorbs(h: int, c: int)
    ensures Wrap(Wrap(h) * BASE + c) == Wrap(h * BASE + c)
  {
    var q := (h - Wrap(h)) / M;
    assert h == Wrap(h) + M * q;
    WrapExact(Wrap(h) * BASE + c, h * BASE + c);
  }

  /** Poly(a + b) == Poly(a) * 131^|b| + Poly(b). */
  lemma {:induction false} PolyConcat(a: seq<Char8>, b: seq<Char8>)
    ensures Poly(a + b) == Poly(a) * Pow(|b|) + Poly(b)
  {
    if a == [] {
      assert a + b == b;
    } else {
      assert (a + b)[1..] == a[1..] + b;
      PolyConcat(a[1..], b);
      PowAdd(|a| - 1, |b|);
      Distribute(a[0], Pow(|a| - 1), Pow(|b|), Poly(a[1..]), Poly(b));
    }
  }

  lemma Distribute(c: int, p: int, q: int, x: int, y: int)
    ensures c * (p * q) + (x * q + y) == (c * p + x) * q + y
  {
  }

  lemma {:induction false} PowAdd(m: nat, n: nat)
    ensures Pow(m + n) == Pow(m) * Pow(n)
  {
    if m > 0 {
      PowAdd(m - 1, n);
      assert BASE * (Pow(m - 1) * Pow(n)) == (BASE * Pow(m - 1)) * Pow(n);
    }
  }

  /** The loop of BKDR_hash computes the polynomial, wrapped. */
  method BkdrHash(str: seq<Char8>) returns (hash: Int32)
    ensures hash == Wrap(Poly(str))
  {
    hash := 0;
    for i := 0 to |str|
      invariant hash == Wrap(Poly(str[..i]))
    {
      PolyNext(str, i);
      WrapAbsorbs(Poly(str[..i]), str[i]);
      hash := Wrap(hash * BASE + str[i]);
    }
    assert str[..|str|] == str;
  }

  lemma PolyNext(str: seq<Char8>, i: nat)
    requires i < |str|
    ensures Poly(str[..i + 1]) == Poly(str[..i]) * BASE + str[i]
  {
    assert str[..i + 1] == str[..i] + [str[i]];
    PolyConcat(str[..i], [str[i]]);
    assert Pow(1) == BASE * Pow(0) && Poly([str[i]]) == str[i] * Pow(0) + Poly([str[i]][1..]);
  }

  // ---------------------------------------------------------------- collisions

  /** The inverse of 131 modulo 2^32. */
  const INVERSE := 3376959019

  /** 131 is odd, so multiplying by it loses nothing modulo 2^32. */
  lemma CancelBase(x: int)
    requires (BASE * x) % M == 0
    ensures x % M == 0
  {
    var q := BASE * x / M;
    assert BASE * x == M * q;
    assert BASE * INVERSE == 1 + 103 * M;
    assert x == M * (INVERSE * q - 103 * x);
  }

  lemma {:induction false} CancelPow(d: int, n: nat)
    requires (d * Pow(n)) % M == 0
    ensures d % M == 0
  {
    if n > 0 {
      assert d * Pow(n) == BASE * (d * Pow(n - 1));
      CancelBase(d * Pow(n - 1));
      CancelPow(d, n - 1);
    } else {
      assert d * Pow(0) == d;
    }
  }

  /** The strings s and t agree everywhere but at position i. */
  ghost predicate DifferAt(s: seq<Char8>, t: seq<Char8>, i: nat) {
    |s| == |t| && i < |s| && s[i] != t[i] && s[..i] == t[..i] && s[i + 1..] == t[i + 1..]
  }

  lemma PolySplit(s: seq<Char8>, i: nat)
    requires i < |s|
    ensures Poly(s) == Poly(s[..i]) * Pow(|s| - i) + Poly(s[i..])
    ensures Poly(s[i..]) == s[i] * Pow(|s| - i - 1) + Poly(s[i + 1..])
  {
    PolyConcat(s[..i], s[i..]);
    assert s == s[..i] + s[i..] && |s[i..]| == |s| - i;
    assert s[i..][1..] == s[i + 1..] && s[i..][0] == s[i];
  }

  lemma Factor(x: int, y: int, p: int)
    ensures x * p - y * p == (x - y) * p
  {
  }

  lemma DifferBy(s: seq<Char8>, t: seq<Char8>, i: nat)
    requires DifferAt(s, t, i)
    ensures Poly(s) - Poly(t) == (s[i] - t[i]) * Pow(|s| - i - 1)
  {
    var p := Pow(|s| - i - 1);
    var x: int, y: int := s[i], t[i];
    PolySplit(s, i);
    PolySplit(t, i);
    assert Poly(s) - Poly(t) == x * p - y * p;
    Factor(x, y, p);
  }

  lemma Small(d: int)
    requires -256 < d < 256 && d % M == 0
    ensures d == 0
  {
  }

  /** Equal-length strings that differ in one character never share a hash. */
  lemma OneCharNoCollision(s: seq<Char8>, t: seq<Char8>, i: nat)
    requires DifferAt(s, t, i)
    ensures Wrap(Poly(s)) != Wrap(Poly(t))
  {
    DifferBy(s, t, i);
    WrapExact(Poly(s), Poly(t));
    NotMultiple((s[i] as int) - t[i], |s| - i - 1);
  }

  lemma NotMultiple(d: int, n: nat)
    requires -256 < d < 256 && d != 0
    ensures (d * Pow(n)) % M != 0
  {
    if (d * Pow(n)) % M == 0 {
      CancelPow(d, n);
      Small(d);
    }
  }

  // ---------------------------------------------------------------- link keys

  /** BKDR_hash(ip) + port. */
  function LinkKey(ip: seq<Char8>, port: Int32): Int32 {
    Wrap(Wrap(Poly(ip)) + port)
  }

  /** Two endpoints share a key exactly when polynomial plus port agree modulo 2^32. */
  lemma KeyExact(ip: seq<Char8>, port: Int32, ip': seq<Char8>, port': Int32)
    ensures LinkKey(ip, port) == LinkKey(ip', port') <==> (Poly(ip) + port - (Poly(ip') + port')) % M == 0
  {
    var a, b := Poly(ip), Poly(ip');
    WrapExact(Wrap(a) + port, Wrap(b) + port');
    Shift(a, b, port - port');
  }

  lemma Shift(a: int, b: int, d: int)
    ensures (Wrap(a) - Wrap(b) + d) % M == 0 <==> (a - b + d) % M == 0
  {
    var p, q := (a - Wrap(a)) / M, (b - Wrap(b)) / M;
    assert a == Wrap(a) + M * p && b == Wrap(b) + M * q;
    assert a - b + d == (Wrap(a) - Wrap(b) + d) + M * (p - q);
  }

  /** For one ip, distinct ports have distinct link keys. */
  lemma PortsApart(ip: seq<Char8>, port: Int32, port': Int32)
    requires port != port'
    ensures LinkKey(ip, port) != LinkKey(ip, port')
  {
    KeyExact(ip, port, ip, port');
  }

  /** Endpoints are not kept apart in general: for ips that differ in their last character only, the keys
      are equal exactly when the ports make up for the difference of the characters. */
  lemma NeighboursCollide(ip: seq<Char8>, ip': seq<Char8>, port: Int32, port': Int32)
    requires ip != [] && DifferAt(ip, ip', |ip| - 1)
    requires 0 <= port < 65536 && 0 <= port' < 65536
    ensures LinkKey(ip, port) == LinkKey(ip', port') <==> Last(ip) + port == Last(ip') + port'
  {
    KeyExact(ip, port, ip', port');
    DifferBy(ip, ip', |ip| - 1);
    assert Pow(0) == 1;
  }
}
