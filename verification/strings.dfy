/** String helpers shared by the route guards and the translation page.
    Strings are sequences of characters. */
module Strings {

  /** `s.startsWith(prefix)`. */
  predicate StartsWith(s: string, prefix: string) {
    |prefix| <= |s| && s[..|prefix|] == prefix
  }

  /** A string that runs out, or differs from `prefix` at some position of
      `prefix`, does not start with `prefix`. */
  lemma DiffersAt(s: string, prefix: string, i: nat)
    requires i < |prefix|
    requires i >= |s| || s[i] != prefix[i]
    ensures !StartsWith(s, prefix)
  {
    if |prefix| <= |s| {
      assert s[..|prefix|][i] != prefix[i];
    }
  }

  /** The characters of the regular-expression class `\s`, which are also the
      characters `String.prototype.trim` removes: the ECMAScript WhiteSpace
      and LineTerminator characters. */
  predicate IsSpace(c: char) {
    var n := c as int;
    || (9 <= n <= 13)
    || n == 0x20
    || n == 0xA0
    || n == 0x1680
    || (0x2000 <= n <= 0x200A)
    || n == 0x2028
    || n == 0x2029
    || n == 0x202F
    || n == 0x205F
    || n == 0x3000
    || n == 0xFEFF
  }

  /** `/\s+/.test(s)`: some character of `s` is white space. */
  predicate HasSpace(s: string) {
    exists i :: 0 <= i < |s| && IsSpace(s[i])
  }

  /** No character of `s` is white space. */
  predicate NoSpace(s: string) {
    forall i :: 0 <= i < |s| ==> !IsSpace(s[i])
  }

  /** Every character of `s` is white space. */
  predicate AllSpace(s: string) {
    forall i :: 0 <= i < |s| ==> IsSpace(s[i])
  }

  /** The concatenation of a list of strings, `segs.join("")`. */
  function Concat(segs: seq<string>): string {
    if |segs| == 0 then "" else segs[0] + Concat(segs[1..])
  }

  /** Joining two leading strings and the rest. */
  lemma ConcatTwo(a: string, b: string, t: seq<string>)
    ensures Concat([a, b] + t) == a + b + Concat(t)
  {
    var segs := [a, b] + t;
    assert segs[1..] == [b] + t && segs[1..][1..] == t;
    assert Concat(segs) == a + (b + Concat(t));
  }
}
