/** The cart total that utils.py's display_cart_table accumulates while it
    renders the cart (the rendering itself is not modelled). */
module CartTable {
  import opened Models

  /** A cart line joined with its product, as the cart queries return it:
      `product` is the catalogue row that `item.productId` refers to. */
  datatype Line = Line(item: CartItem, product: Product)

  /** A line's subtotal: unit price times quantity. */
  function Subtotal(l: Line): int
  {
    l.product.price * l.item.quantity
  }

  /** The sum of the subtotals, added up in list order (last line last). */
  function Total(lines: seq<Line>): int
    decreases |lines|
  {
    if lines == [] then 0 else Total(lines[..|lines| - 1]) + Subtotal(lines[|lines| - 1])
  }

  /** display_cart_table's running total: no total at all for an empty cart,
      otherwise the sum of every line's subtotal. It only reads the lines. */
  method DisplayCartTotal(lines: seq<Line>) returns (total: Option<int>)
    ensures total.None? <==> lines == []
    ensures total.Some? ==> total.value == Total(lines)
  {
    if lines == [] {
      return None;
    }
    var sum := 0;
    for i := 0 to |lines|
      invariant sum == Total(lines[..i])
    {
      var subtotal := lines[i].product.price * lines[i].item.quantity;
      assert lines[..i + 1][..i] == lines[..i];
      sum := sum + subtotal;
    }
    assert lines[..|lines|] == lines;
    return Some(sum);
  }

  /** The total of a cart split in two is the sum of the parts' totals. */
  lemma {:induction false} TotalAppend(a: seq<Line>, b: seq<Line>)
    ensures Total(a + b) == Total(a) + Total(b)
    decreases |b|
  {
    if b == [] {
      assert a + b == a;
    } else {
      var b' := b[..|b| - 1];
      assert (a + b)[..|a + b| - 1] == a + b';
      TotalAppend(a, b');
    }
  }

  /** Moving the first line to the end leaves the total unchanged (exact
      arithmetic on cents); `TotalPermutation` covers every reordering. */
  lemma TotalRotate(lines: seq<Line>)
    requires lines != []
    ensures Total(lines[1..] + [lines[0]]) == Total(lines)
  {
    TotalAppend([lines[0]], lines[1..]);
    TotalAppend(lines[1..], [lines[0]]);
    assert [lines[0]] + lines[1..] == lines;
    assert [lines[0]][..0] == [];
    assert lines[1..] + [lines[0]] != [];
  }

  /** Taking line `k` out of a cart lowers the total by its subtotal. */
  lemma TotalRemove(a: seq<Line>, k: int)
    requires 0 <= k < |a|
    ensures Total(a) == Total(a[..k] + a[k + 1..]) + Subtotal(a[k])
  {
    var pre, post := a[..k + 1], a[k + 1..];
    assert a == pre + post;
    TotalAppend(pre, post);
    assert pre[..k] == a[..k];
    TotalAppend(a[..k], post);
  }

  /** The total does not depend on the order of the lines: any two lists
      holding the same lines, in any order, have the same total. */
  lemma {:induction false} TotalPermutation(a: seq<Line>, b: seq<Line>)
    requires multiset(a) == multiset(b)
    ensures Total(a) == Total(b)
    decreases |a|
  {
    if a == [] {
      assert |b| == |multiset(b)| == 0;
    } else {
      var x := a[|a| - 1];
      assert x in multiset(b);
      var k :| 0 <= k < |b| && b[k] == x;
      var a', b' := a[..|a| - 1], b[..k] + b[k + 1..];
      assert a == a' + [x];
      assert multiset(a') == multiset(a) - multiset{x};
      assert b == b[..k] + [x] + b[k + 1..];
      assert multiset(b') == multiset(b) - multiset{x};
      TotalPermutation(a', b');
      TotalRemove(b, k);
    }
  }

  /** With non-negative prices and quantities the total is non-negative. */
  lemma {:induction false} TotalNonNegative(lines: seq<Line>)
    requires forall i | 0 <= i < |lines| :: lines[i].product.price >= 0 && lines[i].item.quantity >= 0
    ensures Total(lines) >= 0
    decreases |lines|
  {
    if lines != [] {
      var l := lines[|lines| - 1];
      TotalNonNegative(lines[..|lines| - 1]);
      assert l.product.price >= 0 && l.item.quantity >= 0;
    }
  }
}
