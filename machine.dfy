/** VendingMachine.cs: the machine's state and the operations that change it in place. Every
    interactive method is proved to compute the flow of the same name in module Flow. */
module Machine {
  import opened Console
  import opened Catalogue
  import opened Purchase
  import opened Flow

  class VendingMachine {
    /** The product catalogue. */
    var products: seq<Product>
    /** The user's credit. */
    var credit: real
    /** The basket: indices of the selected products, in the order picked. */
    var selection: seq<int>
    /** Where the user's answers come from. */
    const console: Terminal

    /** The state the static initialisers give: no products, no credit, an empty basket. */
    constructor (console: Terminal)
      ensures State() == Session([], 0.0, []) && this.console == console
    {
      products, credit, selection := [], 0.0, [];
      this.console := console;
    }

    /** The machine's state as a value. */
    function State(): (r: Session)
      reads this
      ensures r.products == products && r.credit == credit && r.selection == selection
    {
      Session(products, credit, selection)
    }

    /** The basket only holds indices into the catalogue. */
    predicate Valid()
      reads this
    {
      State().Valid()
    }

    /** AddProduct: add (name, cost) unless an equal product is already there; say whether it
        was added. */
    method AddProduct(name: string, cost: real) returns (added: bool)
      modifies this
      ensures added <==> Product(name, cost) !in old(products)
      ensures products == if added then old(products) + [Product(name, cost)] else old(products)
      ensures Insert(old(products), Product(name, cost)) == Insertion(products, added)
      ensures credit == old(credit) && selection == old(selection)
    {
      var newProduct := Product(name, cost);
      if newProduct !in products {
        products := products + [newProduct];
        return true;
      }
      return false;
    }

    /** AddCredits: increase the credit by the amount, whatever its sign; always answers false. */
    method AddCredits(increase: real) returns (r: bool)
      modifies this
      ensures credit == old(credit) + increase && !r
      ensures products == old(products) && selection == old(selection)
    {
      credit := credit + increase;
      return false;
    }

    /** CalculateTotal: the cost of the basket; reads the state and changes nothing. */
    method CalculateTotal() returns (total: real)
      requires Valid()
      ensures total == Total(products, selection)
    {
      total := 0.0;
      for i := 0 to |selection|
        invariant total == Total(products, selection[..i])
      {
        assert selection[..i + 1][..i] == selection[..i];
        total := total + products[selection[i]].cost;
      }
      assert selection[..|selection|] == selection;
    }

    /** MakePurchase: debit the basket's total when a positive credit remains. */
    method MakePurchase() returns (ok: bool)
      requires Valid()
      modifies this
      ensures var d := Debit(old(credit), Total(old(products), old(selection)));
              credit == d.credit && ok == d.debited
      ensures products == old(products) && selection == old(selection)
    {
      var total := CalculateTotal();
      var remaining := credit - total;
      if remaining > 0.0 {
        credit := remaining;
        return true;
      }
      return false;
    }

    /** AddCreditsDisplay: ask until a parsable, non-negative amount is typed, add it, then wait
        for a key. Answers true when the input ran out first. */
    method AddCreditsDisplay() returns (ended: bool)
      modifies this, console
      ensures var r := AddCreditsFlow(old(State()), old(console.pending));
              State() == r.s && console.pending == r.rest && ended == r.ended
    {
      var validInput := false;
      var addCredits: real := 0.0;
      ghost var s0, in0 := State(), console.pending;
      while !validInput
        invariant State() == s0
        invariant !validInput ==> AddCreditsFlow(s0, console.pending) == AddCreditsFlow(s0, in0)
        invariant validInput ==> AddCreditsFlow(s0, in0) ==
                                 Pause(s0.(credit := s0.credit + addCredits), console.pending)
        decreases |console.pending| + (if validInput then 0 else 1)
      {
        var line := console.ReadAmount();
        if line.EndOfInput? {
          return true;
        }
        addCredits := if line.value.Some? then line.value.value else 0.0;
        validInput := line.value.Some? && addCredits >= 0.0;
      }
      var _ := AddCredits(addCredits);
      var key := console.ReadKey();
      ended := key.EndOfInput?;
    }

    /** ProductSelection: the picking loop, then the payment loop unless the user cancelled.
        Answers true when the input ran out first. */
    method ProductSelection() returns (ended: bool)
      requires Valid()
      modifies this, console
      ensures var r := SelectionFlow(old(State()), old(console.pending));
              State() == r.s && console.pending == r.rest && ended == r.ended
    {
      var end := PickProducts();
      match end
      case Cancelled =>
        return false;
      case OutOfInput =>
        return true;
      case ToPayment =>
        ended := Pay();
    }

    /** ProductSelection's picking loop: read product numbers until one is picked and the
        user does not answer Y to "add another", or until 0 cancels and empties the basket. */
    method PickProducts() returns (end: PickEnd)
      requires Valid()
      modifies this, console
      ensures Picking(end, State(), console.pending) == PickLoop(old(State()), old(console.pending))
    {
      var productSelected, selectionDone := false, false;
      ghost var s0, in0 := State(), console.pending;
      while !productSelected || !selectionDone
        invariant Valid() && products == s0.products && credit == s0.credit
        invariant selectionDone ==> productSelected
        invariant !selectionDone ==> PickLoop(State(), console.pending) == PickLoop(s0, in0)
        invariant selectionDone ==> PickLoop(s0, in0) == Picking(ToPayment, State(), console.pending)
        decreases |console.pending|
      {
        var line := console.ReadNumber();
        if line.EndOfInput? {
          return OutOfInput;
        }
        if line.value.Some? {
          var product := line.value.value;
          if product >= 0 && product <= |products| {
            if product == 0 {
              selection := [];
              return Cancelled;
            }
            product := product - 1;
            productSelected := true;
            selection := selection + [product];
            var response := console.ReadKey();
            if response.EndOfInput? {
              return OutOfInput;
            }
            if response.value != Y {
              selectionDone := true;
            }
          }
        }
      }
      return ToPayment;
    }

    /** ProductSelection's payment loop: settle when the credit covers the total; otherwise
        offer to add credit and to continue, and give up on any answer other than Y. Every way
        out empties the basket. Answers true when the input ran out first. */
    method Pay() returns (ended: bool)
      requires Valid()
      modifies this, console
      ensures var r := PayLoop(old(State()), old(console.pending));
              State() == r.s && console.pending == r.rest && ended == r.ended
    {
      var enoughCredits := false;
      ghost var target := PayLoop(State(), console.pending);
      while !enoughCredits
        invariant Valid()
        invariant !enoughCredits ==> PayLoop(State(), console.pending) == target
        invariant enoughCredits ==> target == Flow.Run(State().(selection := []), console.pending, false)
        decreases |console.pending|
      {
        var total := CalculateTotal();
        enoughCredits := total <= credit;
        if enoughCredits {
          var _ := MakePurchase();
          var key := console.ReadKey();
          if key.EndOfInput? {
            return true;
          }
        } else {
          var moreCreditsAnswer := console.ReadKey();
          if moreCreditsAnswer.EndOfInput? {
            return true;
          }
          if moreCreditsAnswer.value != Y {
            selection := [];
            return false;
          }
          var toppedEnded := AddCreditsDisplay();
          if toppedEnded {
            return true;
          }
          var continueOrder := console.ReadKey();
          if continueOrder.EndOfInput? {
            return true;
          }
          if continueOrder.value != Y {
            selection := [];
            return false;
          }
        }
      }
      selection := [];
      return false;
    }

    /** Main's five AddProduct calls. */
    method SeedCatalogue()
      modifies this
      ensures products == Seed(old(products))
      ensures credit == old(credit) && selection == old(selection)
    {
      ghost var c0, seed := products, SeedProducts();
      var added := AddProduct("Chocolate Bar", 0.80);
      assert InsertAll(c0, seed) == InsertAll(products, seed[1..]);
      added := AddProduct("Soda Can", 0.70);
      assert InsertAll(c0, seed) == InsertAll(products, seed[2..]);
      added := AddProduct("Soda Bottle", 1.25);
      assert InsertAll(c0, seed) == InsertAll(products, seed[3..]);
      added := AddProduct("Crisps", 0.50);
      assert InsertAll(c0, seed) == InsertAll(products, seed[4..]);
      added := AddProduct("Cookies", 1.10);
      assert InsertAll(c0, seed) == InsertAll(products, seed[5..]);
    }

    /** Main: add the five products, then run the menu. Answers true when the input ran out
        before the user quit. */
    method Start() returns (ended: bool)
      requires Valid()
      modifies this, console
      ensures var r := Startup(old(State()), old(console.pending));
              State() == r.s && console.pending == r.rest && ended == r.ended
    {
      ghost var s0 := State();
      SeedCatalogue();
      assert State() == s0.(products := Seed(s0.products));
      assert s0.products <= products;
      ended := MainMenu();
    }

    /** Main's menu loops: 1 adds credit, 2 selects products, 0 or Escape stops, any other key
        asks again without redrawing the menu. Answers true when the input ran out first. */
    method MainMenu() returns (ended: bool)
      requires Valid()
      modifies this, console
      ensures var r := MenuLoop(old(State()), old(console.pending));
              State() == r.s && console.pending == r.rest && ended == r.ended
    {
      var running, submenuSelected := true, false;
      ghost var target := MenuLoop(State(), console.pending);
      while running
        invariant Valid() && !submenuSelected
        invariant running ==> MenuLoop(State(), console.pending) == target
        invariant !running ==> target == Flow.Run(State(), console.pending, false)
        decreases |console.pending|
      {
        ghost var atMenu := console.pending;
        while !submenuSelected
          invariant Valid() && |console.pending| <= |atMenu|
          invariant submenuSelected ==> |console.pending| < |atMenu|
          invariant !submenuSelected ==> running
          invariant running ==> MenuLoop(State(), console.pending) == target
          invariant !running ==> target == Flow.Run(State(), console.pending, false)
          decreases |console.pending|
        {
          submenuSelected := true;
          var key := console.ReadKey();
          if key.EndOfInput? {
            return true;
          }
          match key.value
          case D1 =>
            var e := AddCreditsDisplay();
            if e {
              return true;
            }
          case D2 =>
            var e := ProductSelection();
            if e {
              return true;
            }
          case D0 =>
            running := false;
          case Escape =>
            running := false;
          case _ =>
            submenuSelected := false;
        }
        submenuSelected := false;
      }
      return false;
    }
  }
}
