/**
 * The parts of java.lang.String and of Java's 32-bit `int` arithmetic that the
 * runtime depends on: `hashCode`, `split("\\.")`, `endsWith`, wrap-around and `^`.
 */
module JavaString {

  const TWO_32: int := 0x1_0000_0000
  const INT_MIN: int := -0x8000_0000
  const INT_MAX: int := 0x7FFF_FFFF

  /** The values of a Java `int`. */
  predicate IsInt(x: int) {
    INT_MIN <= x <= INT_MAX
  }

  /** Two's-complement wrap-around of a mathematical integer into a Java `int`. */
  function Wrap(x: int): (r: int)
    ensures IsInt(r)
    ensures (r - x) % TWO_32 == 0
    ensures IsInt(x) ==> r == x
  {
    (x - INT_MIN) % TWO_32 + INT_MIN
  }

  /** The 32 bits of a Java `int`. */
  function ToBits(x: int): bv32
    requires IsInt(x)
  {
    ((x + TWO_32) % TWO_32) as bv32
  }

  /** The Java `int` whose bits are `b`. */
  function FromBits(b: bv32): (x: int)
    ensures IsInt(x)
  {
    if b as int > INT_MAX then b as int - TWO_32 else b as int
  }

  /** Java's `a ^ b` on two `int`s. */
  function Xor(a: int, b: int): (r: int)
    requires IsInt(a) && IsInt(b)
    ensures IsInt(r)
  {
    FromBits(ToBits(a) ^ ToBits(b))
  }

  /**
   * `String.hashCode`: s[0]*31^(n-1) + ... + s[n-1] in wrapping `int` arithmetic.
   * Each character counts with its code point, which is Java's UTF-16 unit for
   * characters of the Basic Multilingual Plane.
   */
  function HashCode(s: string): (h: int)
    ensures IsInt(h)
  {
    if s == [] then 0 else Wrap(31 * HashCode(s[..|s| - 1]) + s[|s| - 1] as int)
  }

  /** `s.endsWith(suffix)`. */
  predicate EndsWith(s: string, suffix: string) {
    |suffix| <= |s| && s[|s| - |suffix|..] == suffix
  }

  /** The pieces of `s` between its dots, empty pieces included. */
  function Pieces(s: string): (ps: seq<string>)
    ensures |ps| >= 1
    ensures forall i :: 0 <= i < |ps| ==> '.' !in ps[i]
    ensures '.' !in s ==> ps == [s]
  {
    if s == [] then [""]
    else
      var rest := Pieces(s[1..]);
      if s[0] == '.' then [""] + rest
      else
        assert '.' !in s ==> '.' !in s[1..] && [s[0]] + s[1..] == s;
        [[s[0]] + rest[0]] + rest[1..]
  }

  /** The pieces joined again with a dot between neighbours. */
  function JoinDots(ps: seq<string>): string
    requires |ps| >= 1
  {
    if |ps| == 1 then ps[0] else ps[0] + "." + JoinDots(ps[1..])
  }

  /** Prefixing a character to the first piece prefixes it to the joined string. */
  lemma JoinPrefixed(c: char, ps: seq<string>)
    requires |ps| >= 1
    ensures JoinDots([[c] + ps[0]] + ps[1..]) == [c] + JoinDots(ps)
  {
    var qs := [[c] + ps[0]] + ps[1..];
    if |ps| > 1 {
      assert qs[1..] == ps[1..];
      assert JoinDots(qs) == ([c] + ps[0]) + "." + JoinDots(ps[1..]);
    }
  }

  /** `Pieces` loses nothing: joining the pieces with dots gives back the string. */
  lemma {:induction false} PiecesJoin(s: string)
    ensures JoinDots(Pieces(s)) == s
  {
    if s != [] {
      var rest := Pieces(s[1..]);
      PiecesJoin(s[1..]);
      if s[0] == '.' {
        var ps := Pieces(s);
        assert ps == [""] + rest;
        assert ps[1..] == rest;
        assert JoinDots(ps) == "" + "." + s[1..];
        assert s == "." + s[1..];
      } else {
        assert Pieces(s) == [[s[0]] + rest[0]] + rest[1..];
        JoinPrefixed(s[0], rest);
        assert s == [s[0]] + s[1..];
      }
    }
  }

  /** The list with its trailing empty strings removed. */
  function DropTrailingEmpty(ps: seq<string>): (r: seq<string>)
    ensures |r| <= |ps| && r == ps[..|r|]
    ensures r != [] ==> r[|r| - 1] != ""
    ensures forall i :: |r| <= i < |ps| ==> ps[i] == ""
  {
    if ps == [] then []
    else if ps[|ps| - 1] == "" then DropTrailingEmpty(ps[..|ps| - 1])
    else ps
  }

  /**
   * `s.split("\\.")`: a string without a dot is its own only token; otherwise the
   * pieces between dots with the trailing empty ones removed.
   */
  function SplitDots(s: string): (tokens: seq<string>)
    ensures forall i :: 0 <= i < |tokens| ==> '.' !in tokens[i]
  {
    if '.' !in s then [s] else DropTrailingEmpty(Pieces(s))
  }
}
