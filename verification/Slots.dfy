/** `Math.ceil(num / stackMax)` on integers, and how it changes when `num` does. */
module Slots {
  import opened Division

  function CeilDiv(n: int, s: int): int
    requires s > 0
  {
    -((-n) / s)
  }

  lemma CeilDivUnique(n: int, s: int, q: int)
    requires s > 0
    ensures q == CeilDiv(n, s) <==> s * (q - 1) < n <= s * q
  {
    var c := CeilDiv(n, s);
    assert s * (c - 1) < n <= s * c by {
      assert -n == s * (-c) + (-n) % s;
      assert s * (-c) == -(s * c) && s * (c - 1) == s * c - s;
    }
    if s * (q - 1) < n <= s * q {
      if q < c {
        Scale(s, q, c - 1);
      } else if c < q {
        Scale(s, c, q - 1);
      }
    }
  }

  lemma CeilDivFits(n: int, s: int, free: int)
    requires s > 0
    ensures CeilDiv(n, s) <= free <==> n <= s * free
  {
    var c := CeilDiv(n, s);
    CeilDivUnique(n, s, c);
    if c <= free {
      Scale(s, c, free);
    } else {
      Scale(s, free, c - 1);
    }
  }

  lemma CeilDivPositive(n: int, s: int)
    requires s > 0 && n > 0
    ensures CeilDiv(n, s) >= 1
  {
    CeilDivUnique(n, s, CeilDiv(n, s));
    if CeilDiv(n, s) <= 0 {
      Scale(s, CeilDiv(n, s), 0);
    }
  }

  /** The places still free in the last, partly filled stack. */
  function Free(a: int, s: int): (free: int)
    requires s > 0
    ensures 0 <= free < s
  {
    CeilDivUnique(a, s, CeilDiv(a, s));
    assert s * (CeilDiv(a, s) - 1) == s * CeilDiv(a, s) - s;
    s * CeilDiv(a, s) - a
  }

  lemma CeilDivParts(n: int, s: int)
    requires s > 0
    ensures CeilDiv(n, s) == n / s + if n % s == 0 then 0 else 1
  {
    var q := n / s;
    assert n == s * q + n % s;
    assert s * (q - 1) == s * q - s && s * (q + 1) == s * q + s;
    CeilDivUnique(n, s, q + if n % s == 0 then 0 else 1);
  }

  /** Adding `b` to `a` takes one slot per started stack of `b`, less one when the rest of `b` fits in the
      last stack. */
  lemma SlotsTaken(a: int, b: int, s: int)
    requires s > 0
    ensures CeilDiv(a + b, s) == CeilDiv(a, s) + CeilDiv(b, s) - if 0 < b % s <= Free(a, s) then 1 else 0
  {
    var ca, q, r, free := CeilDiv(a, s), b / s, b % s, Free(a, s);
    assert b == s * q + r;
    var taken := q + if r <= free then 0 else 1;
    CeilDivParts(b, s);
    assert s * (ca + taken - 1) < a + b <= s * (ca + taken) by {
      assert a == s * ca - free;
      assert s * (ca + q) == s * ca + s * q;
      assert s * (ca + q - 1) == s * ca + s * q - s && s * (ca + q + 1) == s * ca + s * q + s;
    }
    CeilDivUnique(a + b, s, ca + taken);
  }

  lemma SlotsFreed(whole: int, num: int, s: int)
    requires s > 0
    ensures var freed := CeilDiv(whole, s) - CeilDiv(whole - num, s);
            (freed == num / s || freed == CeilDiv(num, s)) && (num >= 0 ==> freed >= 0)
  {
    SlotsTaken(whole - num, num, s);
    CeilDivParts(num, s);
  }

  lemma CeilDivZero(s: int)
    requires s > 0
    ensures CeilDiv(0, s) == 0
  {
  }
}
