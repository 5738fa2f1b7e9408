/**
 * The storefront page's state: the cart and the active category filter, each replaced
 * wholesale by its handler, and the values the page derives from them.
 */
module Storefront {
  import opened Catalog
  import opened CartLines
  import opened CartTotals
  import opened ProductFilter
  import opened Subsequences

  class Index {
    /** The cart's lines, in the order they were first added. */
    var cart: Cart
    /** The category filter: "all" or a category name. */
    var activeCategory: string

    /** At most one line per product id, and no line with fewer than one unit. */
    ghost predicate Valid()
      reads this
    {
      UniqueIds(cart) && PositiveQuantities(cart)
    }

    /** The page opens with an empty cart and the whole catalog shown. */
    constructor ()
      ensures Valid()
      ensures cart == [] && activeCategory == AllCategories
    {
      cart := [];
      activeCategory := AllCategories;
    }

    /** Bump the product's line, or append a line with quantity one. */
    method AddToCart(product: Product)
      requires Valid()
      modifies this
      ensures Valid()
      ensures cart == AddLine(old(cart), product)
      ensures TotalItems(cart) == TotalItems(old(cart)) + 1
      ensures activeCategory == old(activeCategory)
    {
      AddLinePreservesUnique(cart, product);
      AddLinePreservesPositive(cart, product);
      AddLineTotals(cart, product);
      cart := AddLine(cart, product);
    }

    /** Drop every line carrying `productId`. */
    method RemoveFromCart(productId: int)
      requires Valid()
      modifies this
      ensures Valid()
      ensures cart == RemoveId(old(cart), productId)
      ensures !HasId(cart, productId)
      ensures !HasId(old(cart), productId) ==> cart == old(cart)
      ensures activeCategory == old(activeCategory)
    {
      RemoveIdPreservesUnique(cart, productId);
      RemoveIdPreservesPositive(cart, productId);
      if !HasId(cart, productId) {
        RemoveIdAbsent(cart, productId);
      }
      cart := RemoveId(cart, productId);
    }

    /** Zero removes the line; any other quantity is written into the matching line.
        The page only passes a line's quantity plus or minus one, never a negative value. */
    method UpdateQuantity(productId: int, quantity: int)
      requires Valid()
      requires quantity >= 0
      modifies this
      ensures Valid()
      ensures cart == UpdateLine(old(cart), productId, quantity)
      ensures !HasId(old(cart), productId) ==> cart == old(cart)
      ensures activeCategory == old(activeCategory)
    {
      if quantity == 0 {
        RemoveFromCart(productId);
        return;
      }
      UpdateLinePreservesUnique(cart, productId, quantity);
      UpdateLinePreservesPositive(cart, productId, quantity);
      if !HasId(cart, productId) {
        UpdateLineAbsent(cart, productId, quantity);
      }
      cart := SetQty(cart, productId, quantity);
    }

    /** Choose the category filter; the cart is untouched. */
    method SetActiveCategory(category: string)
      modifies this
      ensures activeCategory == category
      ensures cart == old(cart)
    {
      activeCategory := category;
    }

    /** The amount shown as the cart total. */
    function GetTotalPrice(): (r: int)
      reads this
      requires Valid()
      ensures cart == [] ==> r == 0
      ensures NonNegativePrices(cart) ==> r >= 0
    {
      TotalPrice(cart)
    }

    /** The number shown on the cart badge; the badge is shown exactly when the cart has a line. */
    function GetTotalItems(): (n: int)
      reads this
      requires Valid()
      ensures n >= |cart|
      ensures n > 0 <==> cart != []
    {
      TotalItemsBounds(cart);
      TotalItems(cart)
    }

    /** The catalog entries the page lists under the current filter. */
    function FilteredProducts(): (r: seq<Product>)
      reads this
      ensures activeCategory == AllCategories ==> r == Products
      ensures activeCategory != AllCategories ==>
                IsSubsequence(r, Products) &&
                forall x :: x in r <==> x in Products && x.category.Name() == activeCategory
    {
      Visible(Products, activeCategory)
    }
  }
}
