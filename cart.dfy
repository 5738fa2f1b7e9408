/**
 * The cart's lines and the three pure updates the storefront applies to them:
 * adding a product, removing an id, and setting a quantity.
 */
module CartLines {
  import opened Wrappers
  import opened Catalog
  import opened Subsequences

  /** A cart line: the product it was made from and how many of it are in the cart. */
  datatype CartItem = CartItem(product: Product, quantity: int) {
    function Id(): int { product.id }
  }

  type Cart = seq<CartItem>

  /** Some line of `c` carries `id`. */
  predicate HasId(c: Cart, id: int) {
    exists i :: 0 <= i < |c| && c[i].Id() == id
  }

  /** At most one line per product id. */
  predicate UniqueIds(c: Cart) {
    forall i, j :: 0 <= i < j < |c| ==> c[i].Id() != c[j].Id()
  }

  /** Every line holds at least one unit. */
  predicate PositiveQuantities(c: Cart) {
    forall i :: 0 <= i < |c| ==> c[i].quantity >= 1
  }

  /** The first line carrying `id`, if any (the array `find`). */
  function FindLine(c: Cart, id: int): (r: Option<CartItem>)
    ensures r.Some? <==> HasId(c, id)
    ensures r.Some? ==> r.value in c && r.value.Id() == id
  {
    if c == [] then None
    else if c[0].Id() == id then Some(c[0])
    else
      assert HasId(c, id) ==> HasId(c[1..], id) by {
        if HasId(c, id) {
          var i :| 0 <= i < |c| && c[i].Id() == id;
          assert c[1..][i - 1].Id() == id;
        }
      }
      assert HasId(c[1..], id) ==> HasId(c, id) by {
        if HasId(c[1..], id) {
          var i :| 0 <= i < |c[1..]| && c[1..][i].Id() == id;
          assert c[i + 1].Id() == id;
        }
      }
      FindLine(c[1..], id)
  }

  /** `find` returns the line at the first index that carries the id. */
  lemma {:induction false} FindLineFirst(c: Cart, id: int, k: nat)
    requires k < |c| && c[k].Id() == id
    requires forall j :: 0 <= j < k ==> c[j].Id() != id
    ensures FindLine(c, id) == Some(c[k])
  {
    if k > 0 {
      assert c[0].Id() != id;
      assert c[1..][k - 1] == c[k];
      FindLineFirst(c[1..], id, k - 1);
    }
  }

  /** Every line carrying `id` with its quantity raised by one; the others as they were. */
  function Bump(c: Cart, id: int): (r: Cart)
    ensures |r| == |c|
    ensures forall i :: 0 <= i < |c| ==>
              r[i].product == c[i].product &&
              r[i].quantity == (if c[i].Id() == id then c[i].quantity + 1 else c[i].quantity)
  {
    if c == [] then []
    else [if c[0].Id() == id then c[0].(quantity := c[0].quantity + 1) else c[0]] + Bump(c[1..], id)
  }

  /** Every line carrying `id` with its quantity replaced by `q`; the others as they were. */
  function SetQty(c: Cart, id: int, q: int): (r: Cart)
    ensures |r| == |c|
    ensures forall i :: 0 <= i < |c| ==>
              r[i].product == c[i].product &&
              r[i].quantity == (if c[i].Id() == id then q else c[i].quantity)
  {
    if c == [] then []
    else [if c[0].Id() == id then c[0].(quantity := q) else c[0]] + SetQty(c[1..], id, q)
  }

  /** The lines of `c` that do not carry `id`, in their order (the array `filter`). */
  function RemoveId(c: Cart, id: int): (r: Cart)
    ensures !HasId(r, id)
    ensures IsSubsequence(r, c)
    ensures |r| <= |c|
  {
    if c == [] then []
    else if c[0].Id() == id then
      var r := RemoveId(c[1..], id);
      assert c == [c[0]] + c[1..];
      SubsequenceCons(r, c[1..], c[0]);
      r
    else
      var r := [c[0]] + RemoveId(c[1..], id);
      assert r[1..] == RemoveId(c[1..], id);
      assert !HasId(r, id) by {
        forall i | 0 <= i < |r| ensures r[i].Id() != id {
          if i > 0 { assert r[i] == RemoveId(c[1..], id)[i - 1]; }
        }
      }
      r
  }

  /** A line survives removal exactly when it is in the cart and does not carry the id. */
  lemma {:induction false} RemoveIdMembers(c: Cart, id: int)
    ensures forall x :: x in RemoveId(c, id) <==> x in c && x.Id() != id
  {
    if c != [] {
      RemoveIdMembers(c[1..], id);
      assert c == [c[0]] + c[1..];
    }
  }

  /** The new cart after `addToCart(p)`: bump the existing line, or append `p` with quantity one. */
  function AddLine(c: Cart, p: Product): (r: Cart)
    ensures !HasId(c, p.id) ==> |r| == |c| + 1 && r[..|c|] == c && r[|c|] == CartItem(p, 1)
    ensures HasId(c, p.id) ==>
              |r| == |c| &&
              forall i :: 0 <= i < |c| ==>
                r[i].product == c[i].product &&
                r[i].quantity == (if c[i].Id() == p.id then c[i].quantity + 1 else c[i].quantity)
    ensures HasId(r, p.id)
  {
    if FindLine(c, p.id).Some? then
      var r := Bump(c, p.id);
      assert HasId(r, p.id) by {
        var i :| 0 <= i < |c| && c[i].Id() == p.id;
        assert r[i].Id() == p.id;
      }
      r
    else
      var r := c + [CartItem(p, 1)];
      assert r[|c|].Id() == p.id;
      r
  }

  /** The new cart after `updateQuantity(id, q)`: zero removes the line, anything else overwrites it. */
  function UpdateLine(c: Cart, id: int, q: int): (r: Cart)
    ensures q == 0 ==> r == RemoveId(c, id)
    ensures q != 0 ==>
              |r| == |c| &&
              forall i :: 0 <= i < |c| ==>
                r[i].product == c[i].product &&
                r[i].quantity == (if c[i].Id() == id then q else c[i].quantity)
  {
    if q == 0 then RemoveId(c, id) else SetQty(c, id, q)
  }

  /** Dropping the first line keeps at most one line per id. */
  lemma UniqueIdsTail(c: Cart)
    requires c != [] && UniqueIds(c)
    ensures UniqueIds(c[1..])
    ensures !HasId(c[1..], c[0].Id())
  {
    var rest := c[1..];
    forall i, j | 0 <= i < j < |rest| ensures rest[i].Id() != rest[j].Id() {
      assert rest[i] == c[i + 1] && rest[j] == c[j + 1];
    }
    forall i | 0 <= i < |rest| ensures rest[i].Id() != c[0].Id() {
      assert rest[i] == c[i + 1];
    }
  }

  /** With at most one line per id, `find` returns the line at any index that carries the id. */
  lemma FindLineUnique(c: Cart, id: int, k: nat)
    requires UniqueIds(c)
    requires k < |c| && c[k].Id() == id
    ensures FindLine(c, id) == Some(c[k])
  {
    FindLineFirst(c, id, k);
  }

  // ---------------------------------------------------------------------------
  // addToCart

  /** With at most one line per id, adding a product already present changes exactly that line. */
  lemma AddLinePresent(c: Cart, p: Product, k: nat)
    requires UniqueIds(c)
    requires k < |c| && c[k].Id() == p.id
    ensures |AddLine(c, p)| == |c|
    ensures AddLine(c, p)[k] == c[k].(quantity := c[k].quantity + 1)
    ensures forall j :: 0 <= j < |c| && j != k ==> AddLine(c, p)[j] == c[j]
  {
    assert HasId(c, p.id);
  }

  /** Bumping an id that no line carries leaves the cart as it is. */
  lemma BumpAbsent(c: Cart, id: int)
    requires !HasId(c, id)
    ensures Bump(c, id) == c
  {
    var b := Bump(c, id);
    forall i | 0 <= i < |c| ensures b[i] == c[i] { assert c[i].Id() != id; }
  }

  /** Adding a product never puts a second line for one id into the cart. */
  lemma AddLinePreservesUnique(c: Cart, p: Product)
    requires UniqueIds(c)
    ensures UniqueIds(AddLine(c, p))
  {
    var r := AddLine(c, p);
    if !HasId(c, p.id) {
      forall i, j | 0 <= i < j < |r| ensures r[i].Id() != r[j].Id() {
        if j == |c| {
          assert r[i] == c[i];
        } else {
          assert r[i] == c[i] && r[j] == c[j];
        }
      }
    }
  }

  /** Adding a product keeps every quantity at least one. */
  lemma AddLinePreservesPositive(c: Cart, p: Product)
    requires PositiveQuantities(c)
    ensures PositiveQuantities(AddLine(c, p))
  {
    var r := AddLine(c, p);
    if !HasId(c, p.id) {
      forall i | 0 <= i < |r| ensures r[i].quantity >= 1 {
        if i < |c| { assert r[i] == c[i]; }
      }
    }
  }

  // ---------------------------------------------------------------------------
  // removeFromCart

  /** Removing an id that no line carries leaves the cart as it is. */
  lemma {:induction false} RemoveIdAbsent(c: Cart, id: int)
    requires !HasId(c, id)
    ensures RemoveId(c, id) == c
  {
    if c != [] {
      assert c[0].Id() != id;
      assert !HasId(c[1..], id) by {
        forall i | 0 <= i < |c[1..]| ensures c[1..][i].Id() != id {
          assert c[1..][i] == c[i + 1];
        }
      }
      RemoveIdAbsent(c[1..], id);
      assert c == [c[0]] + c[1..];
    }
  }

  /** Removal distributes over concatenation, so it keeps the relative order of what remains. */
  lemma {:induction false} RemoveIdAppend(a: Cart, b: Cart, id: int)
    ensures RemoveId(a + b, id) == RemoveId(a, id) + RemoveId(b, id)
  {
    if a != [] {
      assert (a + b)[1..] == a[1..] + b;
      RemoveIdAppend(a[1..], b, id);
    } else {
      assert a + b == b;
    }
  }

  /** With at most one line per id, removing an id takes out exactly the line that carries it. */
  lemma RemoveIdUnique(c: Cart, id: int, k: nat)
    requires UniqueIds(c)
    requires k < |c| && c[k].Id() == id
    ensures RemoveId(c, id) == c[..k] + c[k + 1..]
  {
    var before, after := c[..k], c[k + 1..];
    assert c == before + [c[k]] + after;
    assert !HasId(before, id) by {
      forall i | 0 <= i < |before| ensures before[i].Id() != id { assert before[i] == c[i]; }
    }
    assert !HasId(after, id) by {
      forall i | 0 <= i < |after| ensures after[i].Id() != id { assert after[i] == c[k + 1 + i]; }
    }
    RemoveIdAppend(before + [c[k]], after, id);
    RemoveIdAppend(before, [c[k]], id);
    RemoveIdAbsent(before, id);
    RemoveIdAbsent(after, id);
    assert RemoveId([c[k]], id) == [];
  }

  /** Removing an id keeps at most one line per id. */
  lemma {:induction false} RemoveIdPreservesUnique(c: Cart, id: int)
    requires UniqueIds(c)
    ensures UniqueIds(RemoveId(c, id))
  {
    if c != [] {
      var rest := c[1..];
      assert UniqueIds(rest) by {
        forall i, j | 0 <= i < j < |rest| ensures rest[i].Id() != rest[j].Id() {
          assert rest[i] == c[i + 1] && rest[j] == c[j + 1];
        }
      }
      RemoveIdPreservesUnique(rest, id);
      if c[0].Id() != id {
        var r := RemoveId(c, id);
        var tail := RemoveId(rest, id);
        RemoveIdMembers(rest, id);
        assert r == [c[0]] + tail;
        forall i, j | 0 <= i < j < |r| ensures r[i].Id() != r[j].Id() {
          if i == 0 {
            assert r[j] in tail;
            assert r[j] in rest;
            var m :| 0 <= m < |rest| && rest[m] == r[j];
            assert c[m + 1] == r[j];
          } else {
            assert r[i] == tail[i - 1] && r[j] == tail[j - 1];
          }
        }
      }
    }
  }

  /** Removing an id keeps every quantity at least one. */
  lemma RemoveIdPreservesPositive(c: Cart, id: int)
    requires PositiveQuantities(c)
    ensures PositiveQuantities(RemoveId(c, id))
  {
    var r := RemoveId(c, id);
    RemoveIdMembers(c, id);
    forall i | 0 <= i < |r| ensures r[i].quantity >= 1 {
      assert r[i] in c;
    }
  }

  /** Adding a product whose id is not in the cart and then removing that id restores the cart. */
  lemma AddThenRemove(c: Cart, p: Product)
    requires !HasId(c, p.id)
    ensures RemoveId(AddLine(c, p), p.id) == c
  {
    assert AddLine(c, p) == c + [CartItem(p, 1)];
    RemoveIdAppend(c, [CartItem(p, 1)], p.id);
    RemoveIdAbsent(c, p.id);
    assert RemoveId([CartItem(p, 1)], p.id) == [];
  }

  // ---------------------------------------------------------------------------
  // updateQuantity

  /** Updating an id that no line carries changes nothing and creates no line. */
  lemma UpdateLineAbsent(c: Cart, id: int, q: int)
    requires !HasId(c, id)
    ensures UpdateLine(c, id, q) == c
  {
    if q == 0 {
      RemoveIdAbsent(c, id);
    } else {
      var r := UpdateLine(c, id, q);
      forall i | 0 <= i < |c| ensures r[i] == c[i] {
        assert c[i].Id() != id;
      }
    }
  }

  /** Updating a quantity keeps at most one line per id. */
  lemma UpdateLinePreservesUnique(c: Cart, id: int, q: int)
    requires UniqueIds(c)
    ensures UniqueIds(UpdateLine(c, id, q))
  {
    if q == 0 {
      RemoveIdPreservesUnique(c, id);
    }
  }

  /** Updating with a non-negative quantity keeps every quantity at least one. */
  lemma UpdateLinePreservesPositive(c: Cart, id: int, q: int)
    requires PositiveQuantities(c)
    requires q >= 0
    ensures PositiveQuantities(UpdateLine(c, id, q))
  {
    if q == 0 {
      RemoveIdPreservesPositive(c, id);
    }
  }

  /** A negative quantity is not rejected: it is written into the matching line. */
  lemma UpdateLineNegativeStored(c: Cart, id: int, q: int)
    requires HasId(c, id)
    requires q < 0
    ensures |UpdateLine(c, id, q)| == |c|
    ensures forall i :: 0 <= i < |c| && c[i].Id() == id ==> UpdateLine(c, id, q)[i].quantity == q
    ensures !PositiveQuantities(UpdateLine(c, id, q))
  {
    var i :| 0 <= i < |c| && c[i].Id() == id;
    assert UpdateLine(c, id, q)[i].quantity == q;
  }

  // ---------------------------------------------------------------------------
  // Repeated adds

  /** The cart after `n` successive adds of the same product: at most one line more than
      before, and for `n >= 1` some line carries the product's id. */
  function AddRepeatedly(c: Cart, p: Product, n: nat): (r: Cart)
    ensures |r| == (if n == 0 || HasId(c, p.id) then |c| else |c| + 1)
    ensures n >= 1 ==> HasId(r, p.id)
    decreases n
  {
    if n == 0 then c else AddRepeatedly(AddLine(c, p), p, n - 1)
  }

  /** Adding a product `m` more times to its own single line of quantity `k` gives quantity `k + m`. */
  lemma {:induction false} AddRepeatedlyToLine(p: Product, k: int, m: nat)
    decreases m
    ensures AddRepeatedly([CartItem(p, k)], p, m) == [CartItem(p, k + m)]
  {
    if m > 0 {
      var c := [CartItem(p, k)];
      assert HasId(c, p.id) by { assert c[0].Id() == p.id; }
      assert AddLine(c, p) == [CartItem(p, k + 1)];
      AddRepeatedlyToLine(p, k + 1, m - 1);
    }
  }

  /** Adding one product `n >= 1` times to an empty cart gives a single line of quantity `n`. */
  lemma AddRepeatedlyFromEmpty(p: Product, n: nat)
    requires n >= 1
    ensures AddRepeatedly([], p, n) == [CartItem(p, n)]
  {
    var one := AddLine([], p);
    assert one == [CartItem(p, 1)];
    assert AddRepeatedly([], p, n) == AddRepeatedly(one, p, n - 1);
    AddRepeatedlyToLine(p, 1, n - 1);
  }
}
