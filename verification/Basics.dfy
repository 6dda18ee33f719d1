/** Bytes, digests and a few string predicates shared by every module. */
module Basics {
  type Byte = x: int | 0 <= x < 256
  type Bytes = seq<Byte>

  /** A hash function. SHA-256 is never unfolded: every result holds for any hash. */
  type Hash = Bytes -> Bytes

  datatype Option<+T> = None | Some(value: T)

  function Min(a: int, b: int): (m: int) {
    if a <= b then a else b
  }

  predicate EndsWith(s: string, suffix: string) {
    |suffix| <= |s| && s[|s| - |suffix|..] == suffix
  }

  function LowerByte(b: Byte): Byte {
    if 65 <= b <= 90 then b + 32 else b
  }

  /** ASCII lower case, byte by byte. */
  function Lower(d: Bytes): Bytes {
    seq(|d|, i requires 0 <= i < |d| => LowerByte(d[i]))
  }

  /** Case-insensitive comparison of digests. */
  predicate EqualFold(a: Bytes, b: Bytes) {
    Lower(a) == Lower(b)
  }

  predicate IsSpace(b: Byte) {
    b == 32 || 9 <= b <= 13
  }

  function TrimSpace(d: Bytes): Bytes {
    if d == [] then []
    else if IsSpace(d[0]) then TrimSpace(d[1..])
    else if IsSpace(d[|d| - 1]) then TrimSpace(d[..|d| - 1])
    else d
  }

  predicate IsHexDigit(b: Byte) {
    48 <= b <= 57 || 97 <= b <= 102
  }

  /** Digests are printed as lower-case hex. */
  ghost predicate HexDigests(h: Hash) {
    forall x: Bytes, i: nat | i < |h(x)| :: IsHexDigit(h(x)[i])
  }

  ghost predicate CollisionFree(h: Hash) {
    forall x: Bytes, y: Bytes | EqualFold(h(x), h(y)) :: x == y
  }

  /** The letter at 65 to 90 and the one 32 above it. */
  predicate SameLetter(a: Byte, b: Byte) {
    a == b || (65 <= a <= 90 && b == a + 32) || (65 <= b <= 90 && a == b + 32)
  }

  /** Digests compare equal when they are the same but for the case of letters. */
  lemma EqualFoldIs(a: Bytes, b: Bytes)
    ensures EqualFold(a, b) <==> |a| == |b| && forall i | 0 <= i < |a| :: SameLetter(a[i], b[i])
  {
    if EqualFold(a, b) {
      assert |Lower(a)| == |a| && |Lower(b)| == |b|;
      forall i | 0 <= i < |a| ensures SameLetter(a[i], b[i]) {
        assert Lower(a)[i] == Lower(b)[i];
      }
    }
    if |a| == |b| && forall i | 0 <= i < |a| :: SameLetter(a[i], b[i]) {
      forall i | 0 <= i < |a| ensures Lower(a)[i] == Lower(b)[i] {
        assert SameLetter(a[i], b[i]);
      }
    }
  }

  predicate AllSpace(d: Bytes) {
    forall i | 0 <= i < |d| :: d[i] in {9, 10, 11, 12, 13, 32}
  }

  /** t is d without the spaces at its two ends. */
  ghost predicate Trimmed(d: Bytes, t: Bytes) {
    exists a: Bytes, b: Bytes :: AllSpace(a) && AllSpace(b) && d == a + t + b
  }

  lemma TrimmedMore(a: Bytes, e: Bytes, b: Bytes, t: Bytes)
    requires AllSpace(a) && AllSpace(b) && Trimmed(e, t)
    ensures Trimmed(a + e + b, t)
  {
    var x: Bytes, y: Bytes :| AllSpace(x) && AllSpace(y) && e == x + t + y;
    assert AllSpace(a + x) && AllSpace(y + b);
    assert a + e + b == (a + x) + t + (y + b);
  }

  /** Trimming takes white space off both ends, all of it and nothing else. */
  lemma {:induction false} TrimSpaceIs(d: Bytes)
    ensures var t := TrimSpace(d); Trimmed(d, t) && (t != [] ==> !AllSpace([t[0]]) && !AllSpace([t[|t| - 1]]))
    decreases |d|
  {
    hide Trimmed;
    if d == [] {
      NothingTrimmed(d);
    } else if IsSpace(d[0]) {
      TrimSpaceIs(d[1..]);
      TrimmedMore([d[0]], d[1..], [], TrimSpace(d[1..]));
      assert [d[0]] + d[1..] + [] == d;
    } else if IsSpace(d[|d| - 1]) {
      TrimSpaceIs(d[..|d| - 1]);
      TrimmedMore([], d[..|d| - 1], [d[|d| - 1]], TrimSpace(d[..|d| - 1]));
      assert [] + d[..|d| - 1] + [d[|d| - 1]] == d;
    } else {
      NothingTrimmed(d);
      assert [d[0]][0] == d[0] && [d[|d| - 1]][0] == d[|d| - 1];
    }
  }

  lemma NothingTrimmed(d: Bytes)
    ensures Trimmed(d, d)
  {
    var none: Bytes := [];
    assert AllSpace(none) && d == none + d + none;
  }

  lemma LowerIdempotent(d: Bytes)
    ensures Lower(Lower(d)) == Lower(d)
  {
  }

  lemma HexIsStable(h: Hash, x: Bytes)
    requires HexDigests(h)
    ensures Lower(h(x)) == h(x) && TrimSpace(h(x)) == h(x)
  {
    var d := h(x);
    forall i: nat | i < |d| ensures IsHexDigit(d[i]) {}
    assert Lower(d) == d;
  }

  lemma SubsetCount<T>(a: set<T>, b: set<T>)
    requires a <= b
    ensures |a| <= |b|
    decreases b
  {
    if a != {} {
      var x :| x in a;
      SubsetCount(a - {x}, b - {x});
    }
  }
}
