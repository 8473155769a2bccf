/**
 * Sprites and the string identity the round engine compares them by:
 * the sprite's name, a '#', and its instance id printed in decimal.
 */
module Sprites {

  /** A sprite asset; Unity tells two asset objects apart by their instance id. */
  datatype Sprite = Sprite(name: string, instanceId: int)

  function Digit(d: nat): char
    requires d < 10
  {
    (48 + d) as char
  }

  /** The decimal digits of n, most significant first. */
  function NatToString(n: nat): string
    decreases n
  {
    if n < 10 then [Digit(n)] else NatToString(n / 10) + [Digit(n % 10)]
  }

  /** The printed form of n is made of decimal digits only, and has one digit exactly when n < 10. */
  lemma {:induction false} NatToStringDigits(n: nat)
    ensures var r := NatToString(n);
      |r| >= 1 && (forall k :: 0 <= k < |r| ==> '0' <= r[k] <= '9') && (|r| == 1) == (n < 10)
    decreases n
  {
    if n >= 10 {
      NatToStringDigits(n / 10);
    }
  }

  /** An int printed as C# prints it: a minus sign for negative values, then the digits. */
  function IntToString(i: int): string {
    if i < 0 then "-" + NatToString(-i) else NatToString(i)
  }

  /** The id written into a button slot for sprite s. */
  function SpriteId(s: Sprite): string {
    s.name + "#" + IntToString(s.instanceId)
  }

  /** The ids of a sequence of sprites, slot by slot. */
  function Ids(s: seq<Sprite>): seq<string> {
    seq(|s|, k requires 0 <= k < |s| => SpriteId(s[k]))
  }

  lemma {:induction false} NatToStringInjective(a: nat, b: nat)
    requires NatToString(a) == NatToString(b)
    ensures a == b
    decreases a
  {
    var r := NatToString(a);
    NatToStringDigits(a);
    NatToStringDigits(b);
    assert Digit(a % 10) as int == 48 + a % 10;
    assert Digit(b % 10) as int == 48 + b % 10;
    assert r[|r| - 1] == Digit(a % 10);
    assert r[|r| - 1] == Digit(b % 10);
    if a >= 10 && b >= 10 {
      assert NatToString(a / 10) == r[..|r| - 1] == NatToString(b / 10);
      NatToStringInjective(a / 10, b / 10);
    }
  }

  /** The first character of a printed int is a minus sign exactly for negative values. */
  lemma IntToStringSign(i: int)
    ensures |IntToString(i)| >= 1 && (IntToString(i)[0] == '-') == (i < 0)
  {
    NatToStringDigits(if i < 0 then -i else i);
  }

  lemma IntToStringInjective(a: int, b: int)
    requires IntToString(a) == IntToString(b)
    ensures a == b
  {
    IntToStringSign(a);
    IntToStringSign(b);
    var r := IntToString(a);
    if a < 0 {
      assert NatToString(-a) == r[1..] == NatToString(-b);
      NatToStringInjective(-a, -b);
    } else {
      NatToStringInjective(a, b);
    }
  }

  lemma IntToStringHasNoHash(i: int)
    ensures '#' !in IntToString(i)
  {
    var r := IntToString(i);
    var digits := NatToString(if i < 0 then -i else i);
    NatToStringDigits(if i < 0 then -i else i);
    forall k | 0 <= k < |r|
      ensures r[k] != '#'
    {
      if i < 0 && k > 0 {
        assert r[k] == digits[k - 1];
      }
    }
  }

  /** In x + "#" + p with no '#' in p, position |x| holds the last '#'. */
  lemma LastHash(x: string, p: string)
    requires '#' !in p
    ensures var s := x + "#" + p; s[|x|] == '#' && forall k :: |x| < k < |s| ==> s[k] != '#'
  {
    var s := x + "#" + p;
    forall k | |x| < k < |s|
      ensures s[k] != '#'
    {
      assert s[k] == p[k - |x| - 1];
    }
  }

  /** When both tails are free of '#', a string of the form x + "#" + p splits in one way only. */
  lemma SplitAtHash(x: string, p: string, y: string, q: string)
    requires x + "#" + p == y + "#" + q
    requires '#' !in p && '#' !in q
    ensures x == y && p == q
  {
    var s := x + "#" + p;
    LastHash(x, p);
    LastHash(y, q);
    assert |x| == |y|;
    assert x == s[..|x|] == y;
    assert p == s[|x| + 1..] == q;
  }

  /** Two sprites get the same id exactly when they are the same sprite. */
  lemma SpriteIdInjective(a: Sprite, b: Sprite)
    ensures SpriteId(a) == SpriteId(b) <==> a == b
  {
    if SpriteId(a) == SpriteId(b) {
      IntToStringHasNoHash(a.instanceId);
      IntToStringHasNoHash(b.instanceId);
      SplitAtHash(a.name, IntToString(a.instanceId), b.name, IntToString(b.instanceId));
      IntToStringInjective(a.instanceId, b.instanceId);
    }
  }
}
