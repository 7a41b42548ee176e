/** Sub-resource names: `name-round`, with the round printed by %d. */
module Names {
  import opened Objects

  function Digit(n: nat): (c: char)
    requires n < 10
  {
    "0123456789"[n]
  }

  function Digits(n: nat): string {
    if n < 10 then [Digit(n)] else Digits(n / 10) + [Digit(n % 10)]
  }

  /** Go's %d. */
  function Decimal(x: int): string {
    if x < 0 then "-" + Digits(-x) else Digits(x)
  }

  function SubName(name: string, round: int): string {
    name + "-" + Decimal(round)
  }

  /** The key under which an owner's sub-resource of a round is stored. */
  function SubKey(owner: Key, round: int): Key {
    Key(owner.ns, SubName(owner.name, round))
  }

  lemma {:induction false} DigitsShape(n: nat)
    ensures Digits(n) != [] && '-' !in Digits(n)
  {
    if n >= 10 {
      DigitsShape(n / 10);
    }
  }

  /** The number a text of digits stands for. */
  function Value(s: string): int {
    if s == "" then 0 else 10 * Value(s[..|s| - 1]) + (s[|s| - 1] as int - '0' as int)
  }

  /** Digits are decimal, most significant first. */
  lemma {:induction false} DigitsRead(n: nat)
    ensures Value(Digits(n)) == n && (forall i | 0 <= i < |Digits(n)| :: '0' <= Digits(n)[i] <= '9')
  {
    DigitRead(n % 10);
    if n >= 10 {
      DigitsRead(n / 10);
      assert Digits(n)[..|Digits(n)| - 1] == Digits(n / 10);
    } else {
      assert [Digit(n)][..0] == "";
    }
  }

  lemma DigitRead(n: nat)
    requires n < 10
    ensures Digit(n) as int - '0' as int == n && '0' <= Digit(n) <= '9'
  {
    assert n == 0 || n == 1 || n == 2 || n == 3 || n == 4 || n == 5 || n == 6 || n == 7 || n == 8 || n == 9;
  }

  lemma {:induction false} DigitsInjective(m: nat, n: nat)
    requires Digits(m) == Digits(n)
    ensures m == n
  {
    DigitsLast(m);
    DigitsLast(n);
    if m >= 10 && n >= 10 {
      var k := |Digits(m)| - 1;
      assert Digits(m)[..k] == Digits(m / 10);
      assert Digits(n)[..k] == Digits(n / 10);
      DigitsInjective(m / 10, n / 10);
    } else if m >= 10 {
      DigitsShape(m / 10);
    } else if n >= 10 {
      DigitsShape(n / 10);
    }
  }

  lemma DigitsLast(n: nat)
    ensures Digits(n) != [] && Digits(n)[|Digits(n)| - 1] == Digit(n % 10)
  {
  }

  /** A text is cut in one way at its last dash. */
  lemma LastDash(x: string, u: string, y: string, v: string)
    requires x + "-" + u == y + "-" + v
    requires '-' !in u && '-' !in v
    ensures x == y && u == v
  {
    var s, t := x + "-" + u, y + "-" + v;
    assert s[|x|] == '-' && t[|y|] == '-';
    assert forall i | |x| < i < |s| :: s[i] == u[i - |x| - 1];
    assert forall i | |y| < i < |t| :: t[i] == v[i - |y| - 1];
    assert |x| == |y|;
    assert x == s[..|x|] && y == t[..|y|];
    assert u == s[|x| + 1..] && v == t[|y| + 1..];
  }

  /** Exactly when two owners in one namespace give the same name to a sub-resource. */
  lemma SubNameCollides(a: string, r: int, b: string, s: int)
    ensures SubName(a, r) == SubName(b, s) <==>
            || (a == b && r == s)
            || (r < 0 && s == -r && b == a + "-")
            || (s < 0 && r == -s && a == b + "-")
  {
    var x, y := if r < 0 then a + "-" else a, if s < 0 then b + "-" else b;
    var u, v := Digits(if r < 0 then -r else r), Digits(if s < 0 then -s else s);
    assert SubName(a, r) == x + "-" + u;
    assert SubName(b, s) == y + "-" + v;
    DigitsShape(if r < 0 then -r else r);
    DigitsShape(if s < 0 then -s else s);
    if SubName(a, r) == SubName(b, s) {
      LastDash(x, u, y, v);
      DigitsInjective(if r < 0 then -r else r, if s < 0 then -s else s);
      if r < 0 && s < 0 {
        assert a == x[..|x| - 1] && b == y[..|y| - 1];
      }
    }
  }

  /** Rounds the controllers use are never negative, so the key decodes to its owner and round. */
  lemma SubKeyUnique(k: Key, r: int, k': Key, r': int)
    requires r >= 0 && r' >= 0
    ensures SubKey(k, r) == SubKey(k', r') <==> k == k' && r == r'
  {
    SubNameCollides(k.name, r, k'.name, r');
  }
}
