/**
 * The products an order links to and its total.
 *
 * The product lookup of an order request yields each existing product whose
 * id occurs in the request once, however often the id is repeated, and drops
 * ids that name no product.  The total is the sum of the prices of
 * exactly those products.
 */
module OrderTotal {
  import opened Records

  /** The ids of the request that name an existing product, as a set. */
  function Resolved(ids: seq<int>, products: map<int, Product>): set<int> {
    set k | k in ids && k in products
  }

  /** The sum of the prices of a set of products: the reference definition of an order total. */
  ghost function PriceSum(ids: set<int>, products: map<int, Product>): int
    requires ids <= products.Keys
    decreases ids
  {
    if forall k :: k !in ids then 0
    else
      var k :| k in ids;
      products[k].price + PriceSum(ids - {k}, products)
  }

  /** The sum does not depend on the order in which its elements are taken. */
  lemma {:induction false} PriceSumRemove(ids: set<int>, products: map<int, Product>, k: int)
    requires ids <= products.Keys && k in ids
    ensures PriceSum(ids, products) == products[k].price + PriceSum(ids - {k}, products)
    decreases ids
  {
    var j :| j in ids && PriceSum(ids, products) == products[j].price + PriceSum(ids - {j}, products);
    if j != k {
      PriceSumRemove(ids - {j}, products, k);
      PriceSumRemove(ids - {k}, products, j);
      assert ids - {j} - {k} == ids - {k} - {j};
    }
  }

  /** A non-empty set of products with positive prices has a positive sum. */
  lemma {:induction false} PriceSumPositive(ids: set<int>, products: map<int, Product>)
    requires ids <= products.Keys && ids != {}
    requires forall k :: k in products ==> products[k].price > 0
    ensures PriceSum(ids, products) > 0
    decreases ids
  {
    if forall k :: k !in ids {
      assert false;
    }
    var k :| k in ids;
    PriceSumRemove(ids, products, k);
    if exists j :: j in ids - {k} {
      PriceSumPositive(ids - {k}, products);
    } else {
      assert PriceSum(ids - {k}, products) == 0;
    }
  }

  /** Walks the requested ids, adding the price of each existing product not yet seen. */
  function SumUnseen(ids: seq<int>, products: map<int, Product>, seen: set<int>): (r: int)
    ensures r == PriceSum(Resolved(ids, products) - seen, products)
  {
    if ids == [] then
      0
    else
      var k := ids[0];
      var whole := Resolved(ids, products) - seen;
      if k in products && k !in seen then
        assert whole - {k} == Resolved(ids[1..], products) - (seen + {k});
        PriceSumRemove(whole, products, k);
        products[k].price + SumUnseen(ids[1..], products, seen + {k})
      else
        assert whole == Resolved(ids[1..], products) - seen;
        SumUnseen(ids[1..], products, seen)
  }

  /** The total of an order request: the sum of the prices of its resolved products. */
  function Total(ids: seq<int>, products: map<int, Product>): (r: int)
    ensures r == PriceSum(Resolved(ids, products), products)
  {
    assert Resolved(ids, products) - {} == Resolved(ids, products);
    SumUnseen(ids, products, {})
  }

  /** An id that names no product, or that the request already holds, changes neither the linked products nor the total. */
  lemma TotalIgnoresUnknownAndRepeated(ids: seq<int>, products: map<int, Product>, k: int)
    requires k !in products || k in ids
    ensures Resolved(ids + [k], products) == Resolved(ids, products)
    ensures Total(ids + [k], products) == Total(ids, products)
  {
    assert forall j :: j in ids + [k] <==> j in ids || j == k;
  }

  /** Two products requested with an unknown id and a repeat: each existing product is counted once. */
  lemma MixedRequestExample()
    ensures
      var products := map[1 := Product("pen", 150, 10), 2 := Product("ink", 275, 0)];
      && Resolved([1, 7, 1, 2], products) == {1, 2}
      && Total([1, 7, 1, 2], products) == 425
  {
    var products := map[1 := Product("pen", 150, 10), 2 := Product("ink", 275, 0)];
    assert Resolved([1, 7, 1, 2], products) == {1, 2};
    var ids := [1, 7, 1, 2];
    assert ids[1..] == [7, 1, 2] && ids[2..] == [1, 2] && ids[3..] == [2] && ids[4..] == [];
    assert SumUnseen([2], products, {1}) == 275 + SumUnseen([], products, {1, 2});
    assert SumUnseen([1, 2], products, {1}) == SumUnseen([2], products, {1});
    assert SumUnseen([7, 1, 2], products, {1}) == SumUnseen([1, 2], products, {1});
    assert SumUnseen(ids, products, {}) == 150 + SumUnseen([7, 1, 2], products, {} + {1});
    assert {} + {1} == {1};
  }
}
