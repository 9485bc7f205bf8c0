/** The interactive flows of the vending machine as functions of the session and of the user's
    answers not yet read. Each function follows one loop of VendingMachine.cs; the methods of
    Machine.VendingMachine are proved to compute exactly these. */
module Flow {
  import opened Console
  import opened Catalogue
  import opened Purchase

  /** The machine's three pieces of state: catalogue, credit and basket. */
  datatype Session = Session(products: seq<Product>, credit: real, selection: seq<int>)
  {
    /** The basket only holds indices into the catalogue. */
    predicate Valid()
    {
      ValidSelection(products, selection)
    }
  }

  /** Where a flow stopped: the session, the answers left unread, and whether the answers ran
      out before the flow finished (the program would then wait for input for ever). */
  datatype Run = Run(s: Session, rest: seq<Token>, ended: bool)

  /** A Console.ReadKey() whose key is ignored ("press any key"): the session is untouched and
      exactly one answer is consumed, unless there is none left. */
  function Pause(s: Session, input: seq<Token>): (r: Run)
    ensures r.s == s && (r.ended <==> input == [])
    ensures |r.rest| == if input == [] then 0 else |input| - 1
    ensures r.rest == input[|input| - |r.rest|..]
  {
    if input == [] then Run(s, [], true) else Run(s, input[1..], false)
  }

  /** AddCreditsDisplay's validInput: the line parses as a number and is not negative. An
      unparsable line or a negative amount is refused; 0, the advertised way to cancel, is
      accepted. */
  predicate IsTopUp(t: Token)
    ensures t.amount.None? ==> !IsTopUp(t)
    ensures t.amount.Some? && t.amount.value < 0.0 ==> !IsTopUp(t)
    ensures t.amount == Some(0.0) ==> IsTopUp(t)
  {
    t.amount.Some? && t.amount.value >= 0.0
  }

  // ---------------------------------------------------------------------------------------
  // Adding credit

  /** AddCreditsDisplay: re-prompt until an acceptable amount is typed, add it to the credit,
      then wait for a key. */
  function AddCreditsFlow(s: Session, input: seq<Token>): (r: Run)
    ensures r.s.products == s.products && r.s.selection == s.selection
    ensures r.s.credit >= s.credit
    ensures r.ended ==> r.rest == []
    ensures |r.rest| <= |input| && (!r.ended ==> |r.rest| < |input|)
    decreases |input|
  {
    if input == [] then Run(s, [], true)
    else if IsTopUp(input[0]) then Pause(s.(credit := s.credit + input[0].amount.value), input[1..])
    else AddCreditsFlow(s, input[1..])
  }

  /** The answers before the first acceptable amount are discarded without any effect, and
      exactly that amount is added (zero included). */
  lemma {:induction false} AddCreditsTakesFirstTopUp(s: Session, input: seq<Token>, i: nat)
    requires i < |input| && IsTopUp(input[i])
    requires forall j :: 0 <= j < i ==> !IsTopUp(input[j])
    ensures AddCreditsFlow(s, input) ==
            Pause(s.(credit := s.credit + input[i].amount.value), input[i + 1..])
    decreases i
  {
    if i > 0 {
      assert !IsTopUp(input[0]);
      AddCreditsTakesFirstTopUp(s, input[1..], i - 1);
      assert input[1..][i - 1 + 1..] == input[i + 1..];
    }
  }

  /** Without an acceptable amount the credit never changes: the prompt consumes every answer. */
  lemma {:induction false} AddCreditsWithoutTopUp(s: Session, input: seq<Token>)
    requires forall j :: 0 <= j < |input| ==> !IsTopUp(input[j])
    ensures AddCreditsFlow(s, input) == Run(s, [], true)
    decreases |input|
  {
    if input != [] {
      AddCreditsWithoutTopUp(s, input[1..]);
    }
  }

  // ---------------------------------------------------------------------------------------
  // Picking products

  /** The product prompt accepts a parsed number between 0 and the catalogue size: 0 (cancel)
      is always accepted, even with an empty catalogue, and any other accepted number p names
      the valid index p - 1. */
  predicate Recognized(s: Session, t: Token)
    ensures t.number == Some(0) ==> Recognized(s, t)
    ensures Recognized(s, t) ==>
              t.number.Some? && (t.number.value != 0 ==> 0 <= t.number.value - 1 < |s.products|)
  {
    t.number.Some? && 0 <= t.number.value <= |s.products|
  }

  /** How the picking loop ends: the user cancelled with 0, finished picking, or the answers
      ran out. */
  datatype PickEnd = Cancelled | ToPayment | OutOfInput

  datatype Picking = Picking(end: PickEnd, s: Session, rest: seq<Token>)

  /** ProductSelection's picking loop. */
  function PickLoop(s: Session, input: seq<Token>): (r: Picking)
    requires s.Valid()
    ensures r.s.Valid() && r.s.products == s.products && r.s.credit == s.credit
    ensures |r.rest| <= |input| && r.rest == input[|input| - |r.rest|..]
    ensures r.end == OutOfInput ==> r.rest == []
    ensures r.end == Cancelled ==> r.s.selection == [] && |r.rest| < |input|
    ensures r.end != Cancelled ==> s.selection <= r.s.selection
    ensures r.end == ToPayment ==> |s.selection| < |r.s.selection| && |r.rest| + 2 <= |input|
    decreases |input|
  {
    if input == [] then Picking(OutOfInput, s, [])
    else if !Recognized(s, input[0]) then PickLoop(s, input[1..])
    else if input[0].number.value == 0 then Picking(Cancelled, s.(selection := []), input[1..])
    else
      var picked := s.(selection := s.selection + [input[0].number.value - 1]);
      assert picked.Valid() by {
        assert forall k :: 0 <= k < |s.selection| ==> picked.selection[k] == s.selection[k];
      }
      if |input| == 1 then Picking(OutOfInput, picked, [])
      else if input[1].key == Y then PickLoop(picked, input[2..])
      else Picking(ToPayment, picked, input[2..])
  }

  /** Unrecognised answers at the product prompt are skipped without any effect. */
  lemma {:induction false} PickSkipsUnrecognized(s: Session, input: seq<Token>, i: nat)
    requires s.Valid() && i <= |input|
    requires forall j :: 0 <= j < i ==> !Recognized(s, input[j])
    ensures PickLoop(s, input) == PickLoop(s, input[i..])
    decreases i
  {
    if i > 0 {
      assert !Recognized(s, input[0]);
      PickSkipsUnrecognized(s, input[1..], i - 1);
      assert input[1..][i - 1..] == input[i..];
    }
  }

  /** 0 at the product prompt empties the basket and ends the loop as cancelled. */
  lemma ZeroCancels(s: Session, input: seq<Token>)
    requires s.Valid() && input != [] && input[0].number == Some(0)
    ensures PickLoop(s, input) == Picking(Cancelled, s.(selection := []), input[1..])
  {
  }

  /** An accepted product number p other than 0 appends the index p - 1 to the basket; the
      following key decides whether the loop asks again (Y) or goes on to payment. */
  lemma PickAppends(s: Session, input: seq<Token>)
    requires s.Valid() && |input| >= 2 && Recognized(s, input[0]) && input[0].number.value != 0
    ensures var picked := s.(selection := s.selection + [input[0].number.value - 1]);
            picked.Valid() &&
            PickLoop(s, input) == if input[1].key == Y then PickLoop(picked, input[2..])
                                  else Picking(ToPayment, picked, input[2..])
  {
    var picked := s.(selection := s.selection + [input[0].number.value - 1]);
    assert forall k :: 0 <= k < |s.selection| ==> picked.selection[k] == s.selection[k];
  }

  /** The last two answers read before rest are a product number p in 1..n, whose index
      p - 1 ends the basket, and a key other than Y. */
  predicate EndsWithPickAndNo(n: nat, input: seq<Token>, rest: seq<Token>, selection: seq<int>)
  {
    var k := |input| - |rest|;
    2 <= k <= |input| && input[k - 1].key != Y &&
    input[k - 2].number.Some? && 1 <= input[k - 2].number.value <= n &&
    selection != [] && selection[|selection| - 1] == input[k - 2].number.value - 1
  }

  /** Answers read before a suffix leave that property of the suffix intact. */
  lemma EndsWithPickAndNoShift(n: nat, input: seq<Token>, j: nat, rest: seq<Token>, selection: seq<int>)
    requires j <= |input| && |rest| <= |input| - j
    requires EndsWithPickAndNo(n, input[j..], rest, selection)
    ensures EndsWithPickAndNo(n, input, rest, selection)
  {
    var k := |input[j..]| - |rest|;
    assert input[j..][k - 1] == input[j + k - 1] && input[j..][k - 2] == input[j + k - 2];
  }

  /** The loop reaches payment only straight after a successful pick answered with something
      other than Y. */
  lemma {:induction false} PaymentFollowsPickAndNo(s: Session, input: seq<Token>)
    requires s.Valid() && PickLoop(s, input).end == ToPayment
    ensures EndsWithPickAndNo(|s.products|, input, PickLoop(s, input).rest, PickLoop(s, input).s.selection)
    decreases |input|
  {
    var r := PickLoop(s, input);
    if !Recognized(s, input[0]) {
      assert r == PickLoop(s, input[1..]);
      PaymentFollowsPickAndNo(s, input[1..]);
      EndsWithPickAndNoShift(|s.products|, input, 1, r.rest, r.s.selection);
    } else {
      var picked := s.(selection := s.selection + [input[0].number.value - 1]);
      if input[1].key == Y {
        assert picked.Valid() && r == PickLoop(picked, input[2..]);
        PaymentFollowsPickAndNo(picked, input[2..]);
        EndsWithPickAndNoShift(|s.products|, input, 2, r.rest, r.s.selection);
      } else {
        assert r == Picking(ToPayment, picked, input[2..]);
      }
    }
  }

  // ---------------------------------------------------------------------------------------
  // Paying

  /** ProductSelection's payment loop: pay when affordable, otherwise offer to add credit and
      to carry on; every way out of the loop empties the basket. */
  function PayLoop(s: Session, input: seq<Token>): (r: Run)
    requires s.Valid()
    ensures r.s.Valid() && r.s.products == s.products
    ensures !r.ended ==> r.s.selection == []
    ensures r.ended ==> r.rest == []
    ensures |r.rest| <= |input| && (!r.ended ==> |r.rest| < |input|)
    ensures s.credit >= 0.0 ==> r.s.credit >= 0.0
    decreases |input|
  {
    var total := Total(s.products, s.selection);
    if Affordable(total, s.credit) then
      var paid := Pause(s.(credit := Debit(s.credit, total).credit), input);
      if paid.ended then paid else paid.(s := paid.s.(selection := []))
    else if input == [] then Run(s, [], true)
    else if input[0].key != Y then Run(s.(selection := []), input[1..], false)
    else
      var topped := AddCreditsFlow(s, input[1..]);
      if topped.ended then topped
      else if topped.rest == [] then Run(topped.s, [], true)
      else if topped.rest[0].key != Y then Run(topped.s.(selection := []), topped.rest[1..], false)
      else PayLoop(topped.s, topped.rest[1..])
  }

  /** An affordable basket is settled at once: MakePurchase's debit, an emptied basket, and
      one answer consumed by the closing key press. */
  lemma AffordablePaysAtOnce(s: Session, input: seq<Token>)
    requires s.Valid() && input != []
    requires Affordable(Total(s.products, s.selection), s.credit)
    ensures PayLoop(s, input) ==
            Run(s.(credit := Debit(s.credit, Total(s.products, s.selection)).credit, selection := []),
                input[1..], false)
  {
  }

  /** The exact-balance case: when the credit equals the total, the purchase goes down the
      success path and empties the basket, but the credit is not touched. */
  lemma ExactBalancePurchaseIsFree(s: Session, input: seq<Token>)
    requires s.Valid() && input != [] && Total(s.products, s.selection) == s.credit
    ensures PayLoop(s, input) == Run(s.(selection := []), input[1..], false)
  {
    ExactBalanceNotDebited(s.credit);
  }

  /** Declining to add credit abandons the order: empty basket, credit unchanged. */
  lemma DeclineTopUpAbandons(s: Session, input: seq<Token>)
    requires s.Valid() && input != [] && input[0].key != Y
    requires !Affordable(Total(s.products, s.selection), s.credit)
    ensures PayLoop(s, input) == Run(s.(selection := []), input[1..], false)
  {
  }

  /** Adding credit and then declining to continue abandons the order: the topped-up credit is
      kept, nothing is debited, the basket is emptied and the loop does not go round again. */
  lemma DeclineContinueAbandons(s: Session, input: seq<Token>)
    requires s.Valid() && input != [] && input[0].key == Y
    requires !Affordable(Total(s.products, s.selection), s.credit)
    requires var t := AddCreditsFlow(s, input[1..]); !t.ended && t.rest != [] && t.rest[0].key != Y
    ensures var t := AddCreditsFlow(s, input[1..]);
            PayLoop(s, input) == Run(t.s.(selection := []), t.rest[1..], false)
  {
  }

  /** With an unaffordable basket, Y to adding credit and Y to continuing sends the loop round
      again on the topped-up session. Together with AffordablePaysAtOnce, DeclineTopUpAbandons
      and DeclineContinueAbandons this covers every way the loop can go on or stop. */
  lemma RetryOnlyAfterTwoYes(s: Session, input: seq<Token>)
    requires s.Valid() && input != [] && input[0].key == Y
    requires !Affordable(Total(s.products, s.selection), s.credit)
    requires var t := AddCreditsFlow(s, input[1..]); !t.ended && t.rest != [] && t.rest[0].key == Y
    ensures var t := AddCreditsFlow(s, input[1..]);
            t.s.Valid() && PayLoop(s, input) == PayLoop(t.s, t.rest[1..])
  {
  }

  /** However many rounds of adding credit happen, the payment loop never takes more from the
      credit than the basket's total: every round only adds credit, and the last one either
      debits the total once or takes nothing. This holds whenever the starting credit or the
      total is non-negative. */
  lemma {:induction false} PayLoopDebitsAtMostTotal(s: Session, input: seq<Token>)
    requires s.Valid() && (s.credit >= 0.0 || Total(s.products, s.selection) >= 0.0)
    ensures PayLoop(s, input).s.credit >= s.credit - Total(s.products, s.selection)
    decreases |input|
  {
    var total := Total(s.products, s.selection);
    if !Affordable(total, s.credit) && input != [] && input[0].key == Y {
      var topped := AddCreditsFlow(s, input[1..]);
      if !topped.ended && topped.rest != [] && topped.rest[0].key == Y {
        PayLoopDebitsAtMostTotal(topped.s, topped.rest[1..]);
      }
    }
  }

  // ---------------------------------------------------------------------------------------
  // The whole product selection

  /** ProductSelection: pick, then pay unless cancelled. */
  function SelectionFlow(s: Session, input: seq<Token>): (r: Run)
    requires s.Valid()
    ensures r.s.Valid() && r.s.products == s.products
    ensures !r.ended ==> r.s.selection == []
    ensures r.ended ==> r.rest == []
    ensures |r.rest| <= |input| && (!r.ended ==> |r.rest| < |input|)
    ensures s.credit >= 0.0 ==> r.s.credit >= 0.0
  {
    var p := PickLoop(s, input);
    match p.end
    case Cancelled => Run(p.s, p.rest, false)
    case OutOfInput => Run(p.s, p.rest, true)
    case ToPayment => PayLoop(p.s, p.rest)
  }

  /** Cancelling at the product prompt skips payment: the basket is emptied and the credit
      is as it was. */
  lemma CancelSkipsPayment(s: Session, input: seq<Token>)
    requires s.Valid() && PickLoop(s, input).end == Cancelled
    ensures SelectionFlow(s, input) == Run(s.(selection := []), PickLoop(s, input).rest, false)
  {
  }

  // ---------------------------------------------------------------------------------------
  // The main menu

  /** Main's menu loop: 1 adds credit, 2 selects products, 0 or Escape quits, any other key
      re-prompts. */
  function MenuLoop(s: Session, input: seq<Token>): (r: Run)
    requires s.Valid()
    ensures r.s.Valid() && r.s.products == s.products
    ensures r.ended ==> r.rest == []
    ensures s.selection == [] && !r.ended ==> r.s.selection == []
    ensures s.credit >= 0.0 ==> r.s.credit >= 0.0
    ensures |r.rest| <= |input|
    decreases |input|
  {
    if input == [] then Run(s, [], true)
    else match input[0].key
      case D1 =>
        var r := AddCreditsFlow(s, input[1..]);
        if r.ended then r else MenuLoop(r.s, r.rest)
      case D2 =>
        var r := SelectionFlow(s, input[1..]);
        if r.ended then r else MenuLoop(r.s, r.rest)
      case D0 => Run(s, input[1..], false)
      case Escape => Run(s, input[1..], false)
      case _ => MenuLoop(s, input[1..])
  }

  /** Key 1 runs the add-credit flow and, unless the input ran out, shows the menu again on
      the session it leaves. */
  lemma MenuOneAddsCredit(s: Session, input: seq<Token>)
    requires s.Valid() && input != [] && input[0].key == D1
    ensures var r := AddCreditsFlow(s, input[1..]);
            r.s.Valid() && MenuLoop(s, input) == if r.ended then r else MenuLoop(r.s, r.rest)
  {
  }

  /** Key 2 runs product selection and, unless the input ran out, shows the menu again on the
      session it leaves. */
  lemma MenuTwoSelects(s: Session, input: seq<Token>)
    requires s.Valid() && input != [] && input[0].key == D2
    ensures var r := SelectionFlow(s, input[1..]);
            r.s.Valid() && MenuLoop(s, input) == if r.ended then r else MenuLoop(r.s, r.rest)
  {
  }

  /** A key other than 1, 2, 0 and Escape changes nothing and the menu asks again. */
  lemma MenuIgnoresOtherKeys(s: Session, t: Token, input: seq<Token>)
    requires s.Valid() && t.key !in {D0, D1, D2, Escape}
    ensures MenuLoop(s, [t] + input) == MenuLoop(s, input)
  {
    assert ([t] + input)[1..] == input;
  }

  /** 0 and Escape end the program with the session as it is. */
  lemma MenuQuits(s: Session, t: Token, input: seq<Token>)
    requires s.Valid() && t.key in {D0, Escape}
    ensures MenuLoop(s, [t] + input) == Run(s, input, false)
  {
    assert ([t] + input)[1..] == input;
  }

  /** Main: add the five products, then run the menu. */
  function Startup(s: Session, input: seq<Token>): (r: Run)
    requires s.Valid()
    ensures r.s.Valid() && r.s.products == Seed(s.products)
  {
    var seeded := s.(products := Seed(s.products));
    assert seeded.Valid() by {
      assert s.products <= seeded.products;
    }
    MenuLoop(seeded, input)
  }

  /** Over a whole run of the program from its initial state, the catalogue is the five seed
      products without duplicates, the credit never becomes negative, and when the user quits
      the basket is empty. */
  lemma WholeRunInvariant(input: seq<Token>)
    ensures var r := Startup(Session([], 0.0, []), input);
            r.s.products == SeedProducts() && Distinct(r.s.products) &&
            r.s.credit >= 0.0 && (!r.ended ==> r.s.selection == [])
  {
    SeedFromEmpty();
  }
}
