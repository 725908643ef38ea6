/** Reading a pair of numbers back out of one. */
module Arithmetic {

  lemma {:induction false} MulAtLeast(x: int, w: int)
    requires x >= 1 && w > 0
    ensures x * w >= w
  {
    if x > 1 {
      MulAtLeast(x - 1, w);
      assert x * w == (x - 1) * w + w;
    }
  }

  lemma MulMinus(a: int, b: int, w: int)
    ensures (a - b) * w == a * w - b * w
  {
  }

  // Division with remainder has one answer.
  lemma OneQuotient(k: int, content: int, q: int, r: int, width: int)
    requires 0 <= content < width && 0 <= r < width && k * width + content == q * width + r
    ensures q == k && r == content
  {
    MulMinus(k, q, width);
    MulMinus(q, k, width);
    if k > q {
      MulAtLeast(k - q, width);
    } else if k < q {
      MulAtLeast(q - k, width);
    }
  }

  lemma DivMod(n: int, width: int)
    requires width > 0
    ensures n == (n / width) * width + n % width && 0 <= n % width < width
  {
  }

  lemma DivisionUndoes(k: int, width: int, content: int)
    requires 0 <= content < width
    ensures (k * width + content) / width == k && (k * width + content) % width == content
  {
    var n := k * width + content;
    DivMod(n, width);
    OneQuotient(k, content, n / width, n % width, width);
  }

  lemma KeyFits(k: nat, keys: int, width: int)
    requires k < keys && width > 0
    ensures 0 <= k * width <= keys * width - width
  {
    MulMinus(keys, k, width);
    MulAtLeast(keys - k, width);
    if k > 0 {
      MulAtLeast(k, width);
    }
  }
}
