/** The purchase engine: the basket total, the affordability test and the debit. */
module Purchase {
  import opened Catalogue

  /** Every entry of the basket is an index into the catalogue. */
  predicate ValidSelection(products: seq<Product>, selection: seq<int>)
  {
    forall k :: 0 <= k < |selection| ==> 0 <= selection[k] < |products|
  }

  /** CalculateTotal: the costs of the selected products added up left to right. An empty
      basket costs nothing and a single pick costs that product's price. */
  function Total(products: seq<Product>, selection: seq<int>): (r: real)
    requires ValidSelection(products, selection)
    ensures selection == [] ==> r == 0.0
    ensures |selection| == 1 ==> r == products[selection[0]].cost
    decreases |selection|
  {
    if selection == [] then 0.0
    else Total(products, selection[..|selection| - 1]) + products[selection[|selection| - 1]].cost
  }

  /** The total of two baskets put together is the sum of their totals, so every occurrence of
      an index counts as a separate unit whatever the order of the picks. */
  lemma {:induction false} TotalConcat(products: seq<Product>, a: seq<int>, b: seq<int>)
    requires ValidSelection(products, a) && ValidSelection(products, b)
    ensures ValidSelection(products, a + b)
    ensures Total(products, a + b) == Total(products, a) + Total(products, b)
    decreases |b|
  {
    assert ValidSelection(products, a + b) by {
      forall k | 0 <= k < |a + b| ensures 0 <= (a + b)[k] < |products| {
        if k >= |a| { assert (a + b)[k] == b[k - |a|]; }
      }
    }
    if b != [] {
      var b' := b[..|b| - 1];
      assert ValidSelection(products, b');
      TotalConcat(products, a, b');
      assert (a + b)[..|a + b| - 1] == a + b';
      assert (a + b)[|a + b| - 1] == b[|b| - 1];
    } else {
      assert a + b == a;
    }
  }

  /** With no negative prices in the catalogue the total is never negative. */
  lemma {:induction false} TotalNonNegative(products: seq<Product>, selection: seq<int>)
    requires ValidSelection(products, selection)
    requires forall p :: p in products ==> p.cost >= 0.0
    ensures Total(products, selection) >= 0.0
    decreases |selection|
  {
    if selection != [] {
      var init := selection[..|selection| - 1];
      assert ValidSelection(products, init);
      TotalNonNegative(products, init);
      assert products[selection[|selection| - 1]] in products;
    }
  }

  /** The payment loop's test enoughCredits: the basket is deemed affordable when its total
      does not exceed the credit. That is exactly when MakePurchase debits it, or when the
      credit equals the total, the one affordable case MakePurchase does not debit. */
  predicate Affordable(total: real, credit: real)
    ensures Affordable(total, credit) <==> Debit(credit, total).debited || credit == total
  {
    total <= credit
  }

  /** The amount still missing, as InsuficientCreditsDisplay computes it. */
  function Shortfall(total: real, credit: real): (r: real)
    ensures !Affordable(total, credit) ==> r > 0.0
    ensures credit + r == total
  {
    total - credit
  }

  /** The new credit and MakePurchase's answer. */
  datatype Settlement = Settlement(credit: real, debited: bool)

  /** MakePurchase: debit the total only when a strictly positive balance would remain. */
  function Debit(credit: real, total: real): (r: Settlement)
    ensures r.debited ==> r.credit + total == credit && r.credit > 0.0
    ensures !r.debited ==> r.credit == credit && credit <= total
    ensures r.debited || credit - total <= 0.0
  {
    var remaining := credit - total;
    if remaining > 0.0 then Settlement(remaining, true) else Settlement(credit, false)
  }

  /** A debit never takes a non-negative credit below zero. */
  lemma DebitNeverNegative(credit: real, total: real)
    requires credit >= 0.0
    ensures Debit(credit, total).credit >= 0.0
  {
  }

  /** The exact-balance case: a basket costing exactly the credit is affordable, yet
      MakePurchase refuses to debit it and the credit stays as it was. */
  lemma ExactBalanceNotDebited(credit: real)
    ensures Affordable(credit, credit)
    ensures Debit(credit, credit) == Settlement(credit, false)
  {
  }
}
