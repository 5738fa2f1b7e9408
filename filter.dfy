/** The catalog as seen through the category filter. */
module ProductFilter {
  import opened Catalog
  import opened Subsequences

  /** The filter value that shows the whole catalog. */
  const AllCategories: string := "all"

  /** The products of `ps` whose category name equals `active`, in their order (the array `filter`). */
  function OfCategory(ps: seq<Product>, active: string): (r: seq<Product>)
    ensures IsSubsequence(r, ps)
    ensures |r| <= |ps|
  {
    if ps == [] then []
    else if ps[0].category.Name() == active then
      var r := [ps[0]] + OfCategory(ps[1..], active);
      assert r[1..] == OfCategory(ps[1..], active);
      r
    else
      var r := OfCategory(ps[1..], active);
      assert ps == [ps[0]] + ps[1..];
      SubsequenceCons(r, ps[1..], ps[0]);
      r
  }

  /** A product is kept exactly when it is in `ps` and has the active category. */
  lemma {:induction false} OfCategoryMembers(ps: seq<Product>, active: string)
    ensures forall x :: x in OfCategory(ps, active) <==> x in ps && x.category.Name() == active
  {
    if ps != [] {
      OfCategoryMembers(ps[1..], active);
      assert ps == [ps[0]] + ps[1..];
    }
  }

  /** The products shown for filter `active`: all of `ps`, or only those of that category. */
  function Visible(ps: seq<Product>, active: string): (r: seq<Product>)
    ensures active == AllCategories ==> r == ps
    ensures active != AllCategories ==>
              IsSubsequence(r, ps) &&
              forall x :: x in r <==> x in ps && x.category.Name() == active
  {
    OfCategoryMembers(ps, active);
    if active == AllCategories then ps else OfCategory(ps, active)
  }

  /** A filter value that names no category shows nothing. */
  lemma {:induction false} UnknownCategoryEmpty(ps: seq<Product>, active: string)
    requires active != AllCategories
    requires forall c: Category :: c.Name() != active
    ensures Visible(ps, active) == []
  {
    if ps != [] {
      assert ps[0].category.Name() != active;
      UnknownCategoryEmpty(ps[1..], active);
    }
  }

  /** Each product is shown under exactly one of the two category filters. */
  lemma {:induction false} CategoriesPartition(ps: seq<Product>)
    ensures |Visible(ps, "clothing")| + |Visible(ps, "cosmetics")| == |ps|
  {
    if ps != [] {
      CategoriesPartition(ps[1..]);
    }
  }

  /** The two category names differ, so each product matches exactly the filter of its own category. */
  lemma NamesDistinct(c: Category, d: Category)
    ensures c.Name() == d.Name() <==> c == d
  {
    if c != d {
      assert c.Name()[1] != d.Name()[1];
    }
  }

  /** Filtering distributes over concatenation, so a list can be filtered piece by piece. */
  lemma {:induction false} OfCategoryAppend(a: seq<Product>, b: seq<Product>, active: string)
    ensures OfCategory(a + b, active) == OfCategory(a, active) + OfCategory(b, active)
  {
    if a == [] {
      assert a + b == b;
    } else {
      assert (a + b)[1..] == a[1..] + b;
      OfCategoryAppend(a[1..], b, active);
    }
  }

  /** Filtering one more element of `ps` extends the filtered prefix by that element or by nothing. */
  lemma OfCategoryPrefix(ps: seq<Product>, k: nat, active: string)
    requires k < |ps|
    ensures OfCategory(ps[..k + 1], active) ==
            OfCategory(ps[..k], active) + (if ps[k].category.Name() == active then [ps[k]] else [])
  {
    assert ps[..k + 1] == ps[..k] + [ps[k]];
    OfCategoryAppend(ps[..k], [ps[k]], active);
    assert [ps[k]][1..] == [];
  }

  /** The catalog's clothing: ids 1, 3 and 5. */
  lemma CatalogClothing()
    ensures Visible(Products, "clothing") == [Qipao, DragonHoodie, HanfuShirt]
  {
    NamesDistinct(Clothing, Cosmetics);
    var ps, n := Products, "clothing";
    assert ps[..0] == [];
    OfCategoryPrefix(ps, 0, n);
    assert OfCategory(ps[..1], n) == [Qipao];
    OfCategoryPrefix(ps, 1, n);
    assert OfCategory(ps[..2], n) == [Qipao];
    OfCategoryPrefix(ps, 2, n);
    assert OfCategory(ps[..3], n) == [Qipao, DragonHoodie];
    OfCategoryPrefix(ps, 3, n);
    assert OfCategory(ps[..4], n) == [Qipao, DragonHoodie];
    OfCategoryPrefix(ps, 4, n);
    assert OfCategory(ps[..5], n) == [Qipao, DragonHoodie, HanfuShirt];
    OfCategoryPrefix(ps, 5, n);
    assert OfCategory(ps[..6], n) == [Qipao, DragonHoodie, HanfuShirt];
    assert ps[..6] == ps;
  }

  /** The catalog's cosmetics: ids 2, 4 and 6. */
  lemma CatalogCosmetics()
    ensures Visible(Products, "cosmetics") == [SkinCareSet, BambooMascara, RiceSerum]
  {
    NamesDistinct(Clothing, Cosmetics);
    var ps, n := Products, "cosmetics";
    assert ps[..0] == [];
    OfCategoryPrefix(ps, 0, n);
    assert OfCategory(ps[..1], n) == [];
    OfCategoryPrefix(ps, 1, n);
    assert OfCategory(ps[..2], n) == [SkinCareSet];
    OfCategoryPrefix(ps, 2, n);
    assert OfCategory(ps[..3], n) == [SkinCareSet];
    OfCategoryPrefix(ps, 3, n);
    assert OfCategory(ps[..4], n) == [SkinCareSet, BambooMascara];
    OfCategoryPrefix(ps, 4, n);
    assert OfCategory(ps[..5], n) == [SkinCareSet, BambooMascara];
    OfCategoryPrefix(ps, 5, n);
    assert OfCategory(ps[..6], n) == [SkinCareSet, BambooMascara, RiceSerum];
    assert ps[..6] == ps;
  }
}
