/** Slot arithmetic: position `j` of a table lives at offset `j % bs` of its block `j / bs`. */
module Arith {
  lemma {:induction false} MulMono(a: nat, b: nat, c: nat)
    requires a <= b
    ensures a * c <= b * c
  {
    if c > 0 {
      MulMono(a, b, c - 1);
      assert a * c == a * (c - 1) + a && b * c == b * (c - 1) + b;
    }
  }

  lemma MulLess(a: nat, b: nat, c: nat)
    requires a * c < b * c
    ensures a < b
  {
    if b <= a { MulMono(b, a, c); }
  }

  lemma MulCancel(a: nat, b: nat, c: nat)
    requires c >= 1 && a * c == b * c
    ensures a == b
  {
    SlotUnique(c, a, 0, b, 0);
  }

  /** Two slots are the same only if block and offset both are. */
  lemma SlotUnique(bs: nat, b: nat, o: nat, b': nat, o': nat)
    requires o < bs && o' < bs && b * bs + o == b' * bs + o'
    ensures b == b' && o == o'
  {
    assert (b + 1) * bs == b * bs + bs && (b' + 1) * bs == b' * bs + bs;
    MulLess(b, b' + 1, bs);
    MulLess(b', b + 1, bs);
  }

  lemma SlotDivMod(bs: nat, q: nat, o: nat)
    requires o < bs
    ensures (q * bs + o) / bs == q && (q * bs + o) % bs == o
  {
    var x := q * bs + o;
    assert x / bs * bs + x % bs == x;
    SlotUnique(bs, x / bs, x % bs, q, o);
  }

  lemma DivMod(bs: nat, j: nat) returns (d: nat, o: nat)
    requires bs >= 1
    ensures d == j / bs && o == j % bs && o < bs && d * bs + o == j
  {
    d, o := j / bs, j % bs;
  }

  lemma DivBound(bs: nat, j: nat, q: nat)
    requires bs >= 1 && j < q * bs
    ensures j / bs < q
  {
    var d, o := DivMod(bs, j);
    MulLess(d, q, bs);
  }

  lemma SlotInRange(bs: nat, n: nat, b: nat, o: nat)
    requires o < bs && b < n
    ensures b * bs + o < n * bs
  {
    MulMono(b + 1, n, bs);
  }

  /** Python's `-(-n // bs)`. */
  function CeilDiv(n: nat, bs: nat): (r: nat)
    requires bs >= 1
    ensures n <= r * bs && (r > 0 ==> (r - 1) * bs < n)
  {
    var r := (n + bs - 1) / bs;
    assert r * bs + (n + bs - 1) % bs == n + bs - 1;
    assert r > 0 ==> (r - 1) * bs == r * bs - bs;
    r
  }

  lemma CeilUnique(n: nat, bs: nat, r: nat)
    requires bs >= 1 && n <= r * bs && (r > 0 ==> (r - 1) * bs < n)
    ensures r == CeilDiv(n, bs)
  {
    var c := CeilDiv(n, bs);
    if c > 0 { MulLess(c - 1, r, bs); }
    if r > 0 { MulLess(r - 1, c, bs); }
  }

  lemma CeilMono(m: nat, n: nat, bs: nat)
    requires bs >= 1 && m <= n
    ensures CeilDiv(m, bs) <= CeilDiv(n, bs)
  {
    var a, b := CeilDiv(m, bs), CeilDiv(n, bs);
    if a > 0 { MulLess(a - 1, b, bs); }
  }

  /** Positions from `len` on that still fall in an existing block fall in the last one, partly full. */
  lemma TailIndex(bs: nat, len: nat, j: nat)
    requires bs >= 1 && len <= j && j / bs < CeilDiv(len, bs)
    ensures len % bs != 0 && j / bs == CeilDiv(len, bs) - 1
  {
    hide CeilDiv;
    var c, q := CeilDiv(len, bs), j / bs;
    assert j < q * bs + bs == (q + 1) * bs;
    MulLess(c - 1, q + 1, bs);
    if len % bs == 0 {
      Aligned(bs, len, c);
    }
  }

  lemma Aligned(bs: nat, len: nat, c: nat)
    requires bs >= 1 && c == CeilDiv(len, bs) && len % bs == 0
    ensures len == c * bs
  {
    CeilUnique(len, bs, len / bs);
  }

  lemma CeilStep(n: nat, bs: nat)
    requires bs >= 1
    ensures CeilDiv(n + 1, bs) == CeilDiv(n, bs) + if n % bs == 0 then 1 else 0
  {
    var q, o := n / bs, n % bs;
    assert n == q * bs + o;
    assert (q + 1) * bs == q * bs + bs;
    CeilUnique(n + 1, bs, q + 1);
    CeilUnique(n, bs, if o == 0 then q else q + 1);
  }

  /** The least integer at or above a real. */
  function Ceil(q: real): (r: int)
    ensures q <= r as real < q + 1.0
  {
    if q == (q.Floor as real) then q.Floor else q.Floor + 1
  }
}
