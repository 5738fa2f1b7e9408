/** The two cart totals shown by the storefront: the price to pay and the number of units. */
module CartTotals {
  import opened Wrappers
  import opened Catalog
  import opened CartLines

  /** No line has a negative price. */
  predicate NonNegativePrices(c: Cart) {
    forall i :: 0 <= i < |c| ==> c[i].product.price >= 0
  }

  /** No line has a negative quantity. */
  predicate NonNegativeQuantities(c: Cart) {
    forall i :: 0 <= i < |c| ==> c[i].quantity >= 0
  }

  /** The price of one line: nothing for no units, never negative for a non-negative price. */
  function LinePrice(x: CartItem): (r: int)
    ensures x.quantity == 0 ==> r == 0
    ensures x.product.price >= 0 && x.quantity >= 0 ==> r >= 0
  {
    x.product.price * x.quantity
  }

  /** Sum of price times quantity, folded from the left as `reduce` does, starting at 0;
      not negative when no price and no quantity is. */
  function TotalPrice(c: Cart): (r: int)
    ensures NonNegativePrices(c) && NonNegativeQuantities(c) ==> r >= 0
  {
    if c == [] then 0
    else TotalPrice(c[..|c| - 1]) + LinePrice(c[|c| - 1])
  }

  /** Sum of quantities, folded from the left as `reduce` does, starting at 0;
      not negative when no quantity is. */
  function TotalItems(c: Cart): (r: int)
    ensures NonNegativeQuantities(c) ==> r >= 0
  {
    if c == [] then 0
    else TotalItems(c[..|c| - 1]) + c[|c| - 1].quantity
  }

  /** Both totals are additive over concatenation. */
  lemma {:induction false} TotalsAppend(a: Cart, b: Cart)
    ensures TotalPrice(a + b) == TotalPrice(a) + TotalPrice(b)
    ensures TotalItems(a + b) == TotalItems(a) + TotalItems(b)
    decreases |b|
  {
    if b == [] {
      assert a + b == a;
    } else {
      var ab := a + b;
      assert ab[..|ab| - 1] == a + b[..|b| - 1];
      assert ab[|ab| - 1] == b[|b| - 1];
      TotalsAppend(a, b[..|b| - 1]);
    }
  }

  /** The totals of a cart with one line. */
  lemma TotalsSingle(x: CartItem)
    ensures TotalPrice([x]) == LinePrice(x)
    ensures TotalItems([x]) == x.quantity
  {
    assert [x][..0] == [];
  }

  /** The totals of a cart split into its first line and the rest. */
  lemma TotalsCons(x: CartItem, c: Cart)
    ensures TotalPrice([x] + c) == LinePrice(x) + TotalPrice(c)
    ensures TotalItems([x] + c) == x.quantity + TotalItems(c)
  {
    TotalsAppend([x], c);
    TotalsSingle(x);
  }

  /** With positive quantities the unit count is at least the number of lines,
      and it is zero exactly for the empty cart. */
  lemma {:induction false} TotalItemsBounds(c: Cart)
    requires PositiveQuantities(c)
    ensures TotalItems(c) >= |c|
    ensures TotalItems(c) == 0 <==> c == []
  {
    if c != [] {
      var init := c[..|c| - 1];
      assert PositiveQuantities(init) by {
        forall i | 0 <= i < |init| ensures init[i].quantity >= 1 { assert init[i] == c[i]; }
      }
      TotalItemsBounds(init);
      assert c[|c| - 1].quantity >= 1;
    }
  }

  /** One more unit on a line costs that line's price once more. */
  lemma LinePriceBump(x: CartItem)
    ensures LinePrice(x.(quantity := x.quantity + 1)) == LinePrice(x) + x.product.price
  {
  }

  /** Raising the quantity of the one line carrying its id adds one unit and that line's price. */
  lemma {:induction false} BumpTotals(c: Cart, k: nat)
    requires UniqueIds(c)
    requires k < |c|
    ensures TotalItems(Bump(c, c[k].Id())) == TotalItems(c) + 1
    ensures TotalPrice(Bump(c, c[k].Id())) == TotalPrice(c) + c[k].product.price
  {
    var id := c[k].Id();
    var x, rest := c[0], c[1..];
    var head := if x.Id() == id then x.(quantity := x.quantity + 1) else x;
    assert c == [x] + rest;
    assert Bump(c, id) == [head] + Bump(rest, id);
    TotalsCons(x, rest);
    TotalsCons(head, Bump(rest, id));
    UniqueIdsTail(c);
    if k == 0 {
      BumpAbsent(rest, id);
      LinePriceBump(x);
    } else {
      assert rest[k - 1] == c[k];
      BumpTotals(rest, k - 1);
    }
  }

  /** `addToCart` adds exactly one unit, and adds the price stored on the line it touched. */
  lemma AddLineTotals(c: Cart, p: Product)
    requires UniqueIds(c)
    ensures TotalItems(AddLine(c, p)) == TotalItems(c) + 1
    ensures TotalPrice(AddLine(c, p)) == TotalPrice(c) + FindLine(AddLine(c, p), p.id).value.product.price
    ensures !HasId(c, p.id) ==> TotalPrice(AddLine(c, p)) == TotalPrice(c) + p.price
  {
    var r := AddLine(c, p);
    AddLinePreservesUnique(c, p);
    if HasId(c, p.id) {
      var k :| 0 <= k < |c| && c[k].Id() == p.id;
      BumpTotals(c, k);
      assert r[k].Id() == p.id;
      FindLineUnique(r, p.id, k);
    } else {
      assert r == c + [CartItem(p, 1)];
      TotalsAppend(c, [CartItem(p, 1)]);
      TotalsSingle(CartItem(p, 1));
      FindLineUnique(r, p.id, |c|);
    }
  }

  /** Removing the one line carrying an id subtracts that line's units and its price times quantity. */
  lemma RemoveIdTotals(c: Cart, id: int, k: nat)
    requires UniqueIds(c)
    requires k < |c| && c[k].Id() == id
    ensures TotalItems(RemoveId(c, id)) == TotalItems(c) - c[k].quantity
    ensures TotalPrice(RemoveId(c, id)) == TotalPrice(c) - LinePrice(c[k])
  {
    RemoveIdUnique(c, id, k);
    var before, after := c[..k], c[k + 1..];
    assert c == before + ([c[k]] + after);
    TotalsAppend(before, after);
    TotalsAppend(before, [c[k]] + after);
    TotalsCons(c[k], after);
  }

  /** From an empty cart, `n >= 1` adds of one product give `n` units costing `n` times its price. */
  lemma AddRepeatedlyFromEmptyTotals(p: Product, n: nat)
    requires n >= 1
    ensures |AddRepeatedly([], p, n)| == 1
    ensures TotalItems(AddRepeatedly([], p, n)) == n
    ensures TotalPrice(AddRepeatedly([], p, n)) == n * p.price
  {
    AddRepeatedlyFromEmpty(p, n);
    TotalsSingle(CartItem(p, n));
  }

  /** Adding `p` once and then `q` twice, for distinct ids, gives one line each in that order;
      setting `p`'s quantity to zero then leaves only `q`'s line. */
  lemma {:induction false} TwoProductSession(p: Product, q: Product)
    requires p.id != q.id
    ensures AddLine(AddLine(AddLine([], p), q), q) == [CartItem(p, 1), CartItem(q, 2)]
    ensures UpdateLine([CartItem(p, 1), CartItem(q, 2)], p.id, 0) == [CartItem(q, 2)]
  {
    var c1 := AddLine([], p);
    assert c1 == [CartItem(p, 1)];
    assert !HasId(c1, q.id);
    var c2 := AddLine(c1, q);
    assert c2 == [CartItem(p, 1), CartItem(q, 1)];
    assert c2[1].Id() == q.id;
    var c3 := AddLine(c2, q);
    assert c3[0] == CartItem(p, 1) && c3[1] == CartItem(q, 2);
    var c := [CartItem(p, 1), CartItem(q, 2)];
    assert c[1..] == [CartItem(q, 2)];
    assert RemoveId([CartItem(q, 2)], p.id) == [CartItem(q, 2)] by {
      assert [CartItem(q, 2)][1..] == [];
    }
  }

  /** The worked example on the catalog: the qipao once and the mascara twice cost
      8900 + 2 * 1450 = 11800 for 3 units; dropping the qipao leaves 2900. */
  lemma CheckoutScenario()
    ensures AddLine(AddLine(AddLine([], Qipao), BambooMascara), BambooMascara)
            == [CartItem(Qipao, 1), CartItem(BambooMascara, 2)]
    ensures TotalPrice([CartItem(Qipao, 1), CartItem(BambooMascara, 2)]) == 11800
    ensures TotalItems([CartItem(Qipao, 1), CartItem(BambooMascara, 2)]) == 3
    ensures UpdateLine([CartItem(Qipao, 1), CartItem(BambooMascara, 2)], 1, 0) == [CartItem(BambooMascara, 2)]
    ensures TotalPrice([CartItem(BambooMascara, 2)]) == 2900
  {
    TwoProductSession(Qipao, BambooMascara);
    TotalsCons(CartItem(Qipao, 1), [CartItem(BambooMascara, 2)]);
    TotalsSingle(CartItem(BambooMascara, 2));
  }
}
