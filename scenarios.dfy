/** Worked sessions on the seeded catalogue (1 Chocolate Bar 0.80, 2 Soda Can 0.70,
    3 Soda Bottle 1.25, 4 Crisps 0.50, 5 Cookies 1.10). */
module Scenarios {
  import opened Console
  import opened Catalogue
  import opened Purchase
  import opened Flow

  /** An answer that is only a key press. */
  function Press(k: Key): (r: Token)
    ensures r.key == k && r.number.None? && r.amount.None?
  {
    Token(k, None, None)
  }

  /** An answer that is a typed line holding an integer (which double.TryParse also accepts). */
  function Typed(n: int): (r: Token)
    ensures r.key == Other && r.number == Some(n) && r.amount == Some(n as real)
  {
    Token(Other, Some(n), Some(n as real))
  }

  /** An answer that is a typed line holding a decimal amount that int.TryParse rejects. */
  function TypedAmount(x: real): (r: Token)
    ensures r.key == Other && r.number.None? && r.amount == Some(x)
  {
    Token(Other, None, Some(x))
  }

  /** The seeded catalogue with the given credit and an empty basket. */
  function Shop(credit: real): (r: Session)
  {
    Session(SeedProducts(), credit, [])
  }

  /** With no credit, pick 1, decline another, decline adding credit: nothing is bought,
      the basket is emptied, the credit stays 0. */
  lemma DeclinedForLackOfCredit()
    ensures Shortfall(Total(SeedProducts(), [0]), 0.0) == 0.80
    ensures SelectionFlow(Shop(0.0), [Typed(1), Press(Other), Press(Other)]) ==
            Run(Shop(0.0), [], false)
  {
    var picked := PickLoop(Shop(0.0), [Typed(1), Press(Other), Press(Other)]);
    assert picked == Picking(ToPayment, Shop(0.0).(selection := [0]), [Press(Other)]);
  }

  /** With credit 1.00, pick 2 (Soda Can, 0.70) and decline another: the purchase settles,
      leaving 0.30 and an empty basket. */
  lemma SodaCanBought()
    ensures SelectionFlow(Shop(1.0), [Typed(2), Press(Other), Press(Other)]) ==
            Run(Shop(0.30), [], false)
  {
    var picked := PickLoop(Shop(1.0), [Typed(2), Press(Other), Press(Other)]);
    assert picked == Picking(ToPayment, Shop(1.0).(selection := [1]), [Press(Other)]);
  }

  /** Entering 0 at the product prompt leaves at once, without payment. */
  lemma CancelledAtOnce(credit: real, rest: seq<Token>)
    ensures SelectionFlow(Shop(credit), [Typed(0)] + rest) == Run(Shop(credit), rest, false)
  {
    assert ([Typed(0)] + rest)[1..] == rest;
  }

  /** Adding credit: -5 is rejected and asked again, 2.5 is accepted. */
  lemma NegativeAmountRejected(s: Session)
    ensures AddCreditsFlow(s, [Typed(-5), TypedAmount(2.5), Press(Other)]) ==
            Run(s.(credit := s.credit + 2.5), [], false)
  {
  }

  /** Two picks (1 then 3, total 2.05) with credit 2.05: the exact-balance case. The purchase
      is reported as a success and the basket emptied, but no credit is taken. */
  lemma TwoPicksExactBalance()
    ensures SelectionFlow(Shop(2.05), [Typed(1), Press(Y), Typed(3), Press(Other), Press(Other)]) ==
            Run(Shop(2.05), [], false)
  {
    var input := [Typed(1), Press(Y), Typed(3), Press(Other), Press(Other)];
    assert input[2..] == [Typed(3), Press(Other), Press(Other)];
    var picked := PickLoop(Shop(2.05), input);
    assert picked == Picking(ToPayment, Shop(2.05).(selection := [0, 2]), [Press(Other)]);
    TotalConcat(SeedProducts(), [0], [2]);
    assert [0] + [2] == [0, 2];
    ExactBalancePurchaseIsFree(Shop(2.05).(selection := [0, 2]), [Press(Other)]);
  }
}
