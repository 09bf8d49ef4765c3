/** What the vending machine promises, proved about the functions that its
    methods are verified against. */
module VendingProofs {
  import opened Options
  import opened ChangeMaking
  import opened Vending

  /** `__init__` sorts the coin values in descending order: 200, 100, 25, 10, 5. */
  lemma InitialCoinValues(values: seq<int>)
    requires values == CoinValuesOf(CoinKeys)
    ensures Initial().coinValues == SortDescending(values)
    ensures NonIncreasing(Initial().coinValues)
    ensures multiset(Initial().coinValues) == multiset(values)
  {
    SortedCoinValues(values);
  }

  /** The machine as the program sets it up: four states registered, then `waiting`. */
  function Configure(): Context
  {
    AddStateTo(AddStateTo(AddStateTo(AddStateTo(Initial(), Waiting), AddCoins), DeliverProduct), CountChange)
  }

  /** The machine invariant: every amount is a non-negative multiple of 5 cents,
      money is only held while adding coins, change is only owed while counting it,
      and `deliver_product` is never where the machine rests. */
  ghost predicate Inv(c: Context)
  {
    && WellFormed(c) && Complete(c.states)
    && c.state.Some? && c.state != Some(DeliverProduct)
    && c.amount >= 0 && c.changeDue >= 0
    && c.amount % 5 == 0 && c.changeDue % 5 == 0
    && (c.state == Some(AddCoins) ==> c.amount > 0)
    && (c.state == Some(CountChange) ==> c.amount == 0 && c.changeDue > 0)
    && (c.state == Some(Waiting) ==> c.amount == 0 && c.changeDue == 0)
    && (c.state == Some(AddCoins) ==> c.changeDue == 0)
  }

  /** After `__init__` and the four `add_state` calls every state is registered
      under its own name, and nothing else has changed. */
  lemma Configured()
    ensures WellFormed(Configure()) && Complete(Configure().states)
    ensures Configure() == Initial().(states := Configure().states)
    ensures Configure().states.Keys == {"waiting", "add_coins", "deliver_product", "count_change"}
  {
    var c1 := AddStateTo(Initial(), Waiting);
    var c2 := AddStateTo(c1, AddCoins);
    var c3 := AddStateTo(c2, DeliverProduct);
    AddStateKeepsWellNamed(Initial(), Waiting);
    AddStateKeepsWellNamed(c1, AddCoins);
    AddStateKeepsWellNamed(c2, DeliverProduct);
    AddStateKeepsWellNamed(c3, CountChange);
  }

  /** `add_state` keeps every state filed under its own name. */
  lemma AddStateKeepsWellNamed(c: Context, s: VState)
    requires WellNamed(c.states)
    ensures WellNamed(AddStateTo(c, s).states)
    ensures AddStateTo(c, s).states.Keys == c.states.Keys + {s.Name()}
  {
  }

  /** Setting the machine up and entering `waiting` gives a machine that keeps the invariant. */
  lemma ConfigureThenWait()
    ensures var r := GoTo(Configure(), "waiting");
            && !r.raised && r.ctx.state == Some(Waiting) && r.ctx.trace == [Entered("waiting")]
            && Inv(r.ctx)
  {
    Configured();
    GoToExitsThenEnters(Configure(), "waiting");
  }

  /** Every coin is worth a positive multiple of 5 cents. */
  lemma CoinValues(e: string)
    requires e in Coins
    ensures Coins[e].1 > 0 && Coins[e].1 % 5 == 0
  {
  }

  /** Every price is a positive multiple of 5 cents. */
  lemma Prices(e: string)
    requires e in Products
    ensures Products[e].1 > 0 && Products[e].1 % 5 == 0
  {
  }

  /** Coin codes, product names and RETURN are three disjoint sets of events. */
  lemma EventsDistinct(e: string)
    ensures e in Coins ==> e !in Products && e != ReturnEvent
    ensures e in Products ==> e != ReturnEvent
  {
  }

  /** `go_to_state` runs the old state's `on_exit`, then the new state's `on_entry`
      (for every state but `deliver_product`, whose entry goes on to another state). */
  lemma GoToExitsThenEnters(c: Context, name: string)
    requires WellNamed(c.states) && name in c.states && name != "deliver_product"
    ensures var r := GoTo(c, name);
            var exit := if c.state.Some? then [Exited(c.state.value.Name())] else [];
            var entry := if name == "count_change" then [ChangeDue(c.changeDue)] else [];
            && !r.raised && r.ctx.state == Some(c.states[name])
            && r.ctx.trace == c.trace + exit + [Entered(name)] + entry
            && r.ctx == c.(state := r.ctx.state, trace := r.ctx.trace)
            && (name == "waiting" ==> r.ctx.state == Some(Waiting))
            && (name == "add_coins" ==> r.ctx.state == Some(AddCoins))
            && (name == "count_change" ==> r.ctx.state == Some(CountChange))
  {
    var exited := if c.state.Some? then Exit(c) else c;
    var s := c.states[name];
    assert s.Name() == name;
    assert s != DeliverProduct;
    var entered := exited.(state := Some(s), trace := exited.trace + [Entered(name)]);
    assert GoTo(c, name) == Enter(exited.(state := Some(s)));
    if s == CountChange {
      assert Enter(exited.(state := Some(s))) == Outcome(entered.(trace := entered.trace + [ChangeDue(c.changeDue)]), false);
    } else {
      assert Enter(exited.(state := Some(s))) == Outcome(entered, false);
    }
  }

  /** An unregistered name raises after `on_exit` has run, leaving the state as it was. */
  lemma GoToUnknownState(c: Context, name: string)
    requires WellNamed(c.states) && name !in c.states
    ensures var r := GoTo(c, name);
            && r.raised && r.ctx.state == c.state
            && r.ctx.trace == c.trace + (if c.state.Some? then [Exited(c.state.value.Name())] else [])
            && r.ctx == c.(trace := r.ctx.trace)
  {
  }

  /** `update()` with no current state changes nothing. */
  lemma StepWithoutState(c: Context)
    requires WellFormed(c) && c.state.None?
    ensures Step(c) == Outcome(c, false)
  {
  }

  /** `go_to_state("deliver_product")` from any state: exit, enter `deliver_product`,
      then either raise on an event that names no product, or charge the price,
      dispense the product and go on to `count_change` (change owed) or `waiting`. */
  lemma DeliverProductRuns(c: Context)
    requires WellNamed(c.states) && Complete(c.states)
    ensures var r := GoTo(c, "deliver_product");
            var exit := if c.state.Some? then [Exited(c.state.value.Name())] else [];
            var entered := c.trace + exit + [Entered("deliver_product")];
            if c.event !in Products then
              r == Outcome(c.(state := Some(DeliverProduct), trace := entered), true)
            else
              var change := c.amount - Products[c.event].1;
              && !r.raised
              && r.ctx == c.(state := r.ctx.state, amount := 0, changeDue := change, trace := r.ctx.trace)
              && r.ctx.state == Some(if change > 0 then CountChange else Waiting)
              && r.ctx.trace == entered + [Dispensed(Products[c.event].0), Exited("deliver_product")]
                   + (if change > 0 then [Entered("count_change"), ChangeDue(change)] else [Entered("waiting")])
  {
    var exit := if c.state.Some? then [Exited(c.state.value.Name())] else [];
    var entered := c.(state := Some(DeliverProduct), trace := c.trace + exit + [Entered("deliver_product")]);
    GoToDeliverProduct(c);
    if c.event in Products {
      DeliverProductCharges(entered);
    }
  }

  /** `go_to_state("deliver_product")` runs `deliver_product`'s entry on the
      context that has exited the old state and entered the new one. */
  lemma GoToDeliverProduct(c: Context)
    requires WellNamed(c.states) && "deliver_product" in c.states
    ensures var exit := if c.state.Some? then [Exited(c.state.value.Name())] else [];
            GoTo(c, "deliver_product")
            == DeliverProductEntry(c.(state := Some(DeliverProduct), trace := c.trace + exit + [Entered("deliver_product")]))
  {
    var exited := if c.state.Some? then Exit(c) else c;
    assert c.states["deliver_product"].Name() == "deliver_product";
    GoToFound(c, "deliver_product");
    var d := exited.(state := Some(DeliverProduct));
    EnterDeliverProduct(d);
    var exit := if c.state.Some? then [Exited(c.state.value.Name())] else [];
    var e1 := d.(trace := d.trace + [Entered("deliver_product")]);
    var e2 := c.(state := Some(DeliverProduct), trace := c.trace + exit + [Entered("deliver_product")]);
    if c.state.Some? {
      assert d.trace == c.trace + exit;
    } else {
      assert d.trace == c.trace + exit by { assert exit == []; }
    }
    assert e1 == e2;
  }

  /** A registered name: exit the current state, then enter the one found. */
  lemma GoToFound(c: Context, name: string)
    requires WellNamed(c.states) && name in c.states
    ensures var exited := if c.state.Some? then Exit(c) else c;
            GoTo(c, name) == Enter(exited.(state := Some(c.states[name])))
  {
  }

  /** Entering `deliver_product` records the entry, then runs the delivery hook. */
  lemma EnterDeliverProduct(d: Context)
    requires WellNamed(d.states) && d.state == Some(DeliverProduct)
    ensures Enter(d) == DeliverProductEntry(d.(trace := d.trace + [Entered("deliver_product")]))
  {
  }

  /** `deliver_product`'s entry for a product: charge, dispense, move on. */
  lemma DeliverProductCharges(d: Context)
    requires WellNamed(d.states) && Complete(d.states) && d.state == Some(DeliverProduct)
    requires d.event in Products
    ensures var r := DeliverProductEntry(d);
            var change := d.amount - Products[d.event].1;
            && !r.raised
            && r.ctx == d.(state := r.ctx.state, amount := 0, changeDue := change, trace := r.ctx.trace)
            && r.ctx.state == Some(if change > 0 then CountChange else Waiting)
            && r.ctx.trace == d.trace + [Dispensed(Products[d.event].0), Exited("deliver_product")]
                 + (if change > 0 then [Entered("count_change"), ChangeDue(change)] else [Entered("waiting")])
  {
    var change := d.amount - Products[d.event].1;
    var charged := d.(changeDue := change, amount := 0, trace := d.trace + [Dispensed(Products[d.event].0)]);
    var next := if change > 0 then "count_change" else "waiting";
    assert DeliverProductEntry(d) == GoTo(charged, next);
    GoToExitsThenEnters(charged, next);
    DeliverProductTrace(d.trace, Products[d.event].0, change);
  }

  /** The trace bookkeeping of `deliver_product`'s entry, as one sequence identity. */
  lemma DeliverProductTrace(t: seq<Effect>, product: string, change: int)
    ensures var entry: seq<Effect> := if 0 < change then [ChangeDue(change)] else [];
            var next := if 0 < change then "count_change" else "waiting";
            t + [Dispensed(product)] + [Exited("deliver_product")] + [Entered(next)] + entry
            == t + [Dispensed(product), Exited("deliver_product")]
               + (if change > 0 then [Entered("count_change"), ChangeDue(change)] else [Entered("waiting")])
  {
  }

  /** Entering `deliver_product` re-enters `go_to_state`: it never stays current,
      unless the event names no product, where the price lookup raises. */
  lemma DeliverProductNeverRests(c: Context)
    requires WellFormed(c) && Complete(c.states)
    ensures var r := GoTo(c, "deliver_product");
            && (r.raised <==> c.event !in Products)
            && (!r.raised ==> r.ctx.state != Some(DeliverProduct))
  {
    DeliverProductRuns(c);
  }

  /** In `waiting`, a coin adds exactly its value and moves to `add_coins`; any other
      event, RETURN and product names included, changes nothing. */
  lemma WaitingStep(c: Context)
    requires WellFormed(c) && Complete(c.states) && c.state == Some(Waiting)
    ensures var r := Step(c);
            if c.event in Coins then
              && !r.raised && r.ctx.state == Some(AddCoins)
              && r.ctx.amount == c.amount + Coins[c.event].1
              && r.ctx.trace == c.trace + [Exited("waiting"), Entered("add_coins")]
              && r.ctx == c.(state := r.ctx.state, amount := r.ctx.amount, trace := r.ctx.trace)
            else r == Outcome(c, false)
  {
  }

  /** In `add_coins`, a coin adds its value and the machine stays there. */
  lemma AddCoinsCoin(c: Context)
    requires WellFormed(c) && c.state == Some(AddCoins) && c.event in Coins
    ensures Step(c) == Outcome(c.(amount := c.amount + Coins[c.event].1), false)
  {
    EventsDistinct(c.event);
  }

  /** In `add_coins`, RETURN refunds everything: the whole amount becomes change due
      and the machine moves to `count_change`. */
  lemma AddCoinsReturn(c: Context)
    requires WellFormed(c) && Complete(c.states) && c.state == Some(AddCoins)
    requires c.event == ReturnEvent
    ensures var r := Step(c);
            && !r.raised && r.ctx.state == Some(CountChange)
            && r.ctx.changeDue == c.amount && r.ctx.amount == 0
            && r.ctx.trace == c.trace + [Exited("add_coins"), Entered("count_change"), ChangeDue(c.amount)]
  {
  }

  /** In `add_coins`, a product that costs more than the amount, or an event that is
      neither RETURN, a coin nor a product, changes nothing. */
  lemma AddCoinsIgnored(c: Context)
    requires WellFormed(c) && c.state == Some(AddCoins)
    requires c.event != ReturnEvent && c.event !in Coins
    requires c.event in Products ==> c.amount < Products[c.event].1
    ensures Step(c) == Outcome(c, false)
  {
  }

  /** Buying product `p` that the amount covers: one `update()` goes through
      `deliver_product` and ends with no money held, the rest owed as change, the
      product dispensed, and the machine counting change or back to waiting. */
  lemma Purchase(c: Context)
    requires WellFormed(c) && Complete(c.states) && c.state == Some(AddCoins)
    requires c.event in Products && c.amount >= Products[c.event].1
    ensures var r := Step(c);
            var change := c.amount - Products[c.event].1;
            && !r.raised && r.ctx.amount == 0 && r.ctx.changeDue == change && change >= 0
            && r.ctx.state == Some(if change > 0 then CountChange else Waiting)
            && r.ctx.trace == c.trace
                 + [Exited("add_coins"), Entered("deliver_product"), Dispensed(Products[c.event].0), Exited("deliver_product")]
                 + (if change > 0 then [Entered("count_change"), ChangeDue(change)] else [Entered("waiting")])
  {
    EventsDistinct(c.event);
    assert Step(c) == GoTo(c, "deliver_product");
    DeliverProductRuns(c);
  }

  /** One `update()` in `count_change` returns, one message per coin, the greedy
      change over the five denominations and keeps owing what is left; the machine is
      back in `waiting` exactly when nothing is left. */
  lemma CountChangeStep(c: Context)
    requires WellFormed(c) && Complete(c.states) && c.state == Some(CountChange)
    ensures var r := Step(c);
            var paid := Greedy(c.changeDue, Denominations);
            && !r.raised
            && r.ctx == c.(state := r.ctx.state, changeDue := paid.1, trace := r.ctx.trace)
            && (r.ctx.state == Some(if paid.1 == 0 then Waiting else CountChange))
            && r.ctx.trace == c.trace + Returned(paid.0)
                 + (if paid.1 == 0 then [Exited("count_change"), Entered("waiting")] else [])
  {
    assert c.coinValues[..5] == Denominations;
    var paid := Greedy(c.changeDue, Denominations);
    var counted := c.(changeDue := paid.1, trace := c.trace + Returned(paid.0));
    assert Step(c) == CountChangeUpdate(c);
    if paid.1 == 0 {
      assert CountChangeUpdate(c) == GoTo(counted, "waiting");
      GoToExitsThenEnters(counted, "waiting");
    } else {
      assert CountChangeUpdate(c) == Outcome(counted, false);
    }
  }

  /** The change `count_change` pays for a non-negative amount: coins largest first,
      each a denomination, worth the amount less what is left, and less than 5 cents left. */
  lemma CountChangeCoins(due: int)
    requires due >= 0
    ensures var paid := Greedy(due, Denominations);
            && NonIncreasing(paid.0)
            && (forall k :: 0 <= k < |paid.0| ==> paid.0[k] in Denominations)
            && Sum(paid.0) == due - paid.1
            && 0 <= paid.1 < 5
  {
    GreedyNonIncreasing(due, Denominations);
    GreedyUsesDenominations(due, Denominations);
  }

  /** The change paid uses the fewest coins: no handful of coins worth the same is smaller. */
  lemma CountChangeFewestCoins(c: Context, other: seq<int>)
    requires WellFormed(c) && c.state == Some(CountChange)
    requires forall k :: 0 <= k < |other| ==> IsDenomination(other[k])
    requires Sum(other) == c.changeDue
    ensures |Greedy(c.changeDue, c.coinValues[..5]).0| <= |other|
  {
    assert c.coinValues[..5] == Denominations;
    GreedyIsOptimal(other);
  }

  /** With nothing owed, `count_change` goes straight back to waiting without returning a coin. */
  lemma CountChangeNothingDue(c: Context)
    requires WellFormed(c) && Complete(c.states) && c.state == Some(CountChange) && c.changeDue == 0
    ensures Step(c) == Outcome(c.(state := Some(Waiting), trace := c.trace + [Exited("count_change"), Entered("waiting")]), false)
  {
    assert Denominations[..5] == Denominations;
    GreedyPaysMultiplesOf5(0, Denominations);
    assert Returned(Greedy(0, Denominations).0) == [] by {
      PayOutPays(0, 5);
      GreedyUsesDenominations(0, Denominations);
      assert Sum(Greedy(0, Denominations).0) == 0;
      NoCoinsForNothing(Greedy(0, Denominations).0);
    }
  }

  lemma {:induction false} NoCoinsForNothing(s: seq<int>)
    requires forall k :: 0 <= k < |s| ==> s[k] in Denominations
    requires Sum(s) == 0
    ensures s == []
  {
    if s != [] {
      SumNonNegative(s[1..]);
    }
  }

  /** Under the invariant a single `count_change` update pays everything and
      returns to `waiting`. */
  lemma CountChangeCompletes(c: Context)
    requires Inv(c) && c.state == Some(CountChange)
    ensures var r := Step(c);
            !r.raised && r.ctx.state == Some(Waiting) && r.ctx.changeDue == 0
  {
    assert Denominations[..5] == Denominations;
    GreedyPaysMultiplesOf5(c.changeDue, Denominations);
  }

  /** Every `update()`, whatever the event, keeps the invariant and raises nothing. */
  lemma StepKeepsInv(c: Context)
    requires Inv(c)
    ensures !Step(c).raised && Inv(Step(c).ctx)
  {
    match c.state.value
    case Waiting => WaitingKeepsInv(c);
    case AddCoins => AddCoinsKeepsInv(c);
    case CountChange =>
      CountChangeCompletes(c);
      CountChangeStep(c);
  }

  lemma WaitingKeepsInv(c: Context)
    requires Inv(c) && c.state == Some(Waiting)
    ensures !Step(c).raised && Inv(Step(c).ctx)
  {
    WaitingStep(c);
    if c.event in Coins {
      CoinValues(c.event);
    }
  }

  lemma AddCoinsKeepsInv(c: Context)
    requires Inv(c) && c.state == Some(AddCoins)
    ensures !Step(c).raised && Inv(Step(c).ctx)
  {
    EventsDistinct(c.event);
    if c.event == ReturnEvent {
      AddCoinsReturn(c);
    } else if c.event in Coins {
      AddCoinsCoin(c);
      CoinValues(c.event);
    } else if c.event in Products && c.amount >= Products[c.event].1 {
      PurchaseKeepsInv(c);
    } else {
      AddCoinsIgnored(c);
    }
  }

  /** A purchase from `add_coins` keeps the invariant and never raises. */
  lemma PurchaseKeepsInv(c: Context)
    requires Inv(c) && c.state == Some(AddCoins)
    requires c.event in Products && c.amount >= Products[c.event].1
    ensures !Step(c).raised && Inv(Step(c).ctx)
  {
    EventsDistinct(c.event);
    Purchase(c);
    Prices(c.event);
  }

  /** Any run of events from a machine that keeps the invariant keeps it, and never raises. */
  lemma {:induction false} DriveKeepsInv(c: Context, events: seq<string>)
    requires Inv(c)
    ensures !Drive(c, events).raised && Inv(Drive(c, events).ctx)
    decreases |events|
  {
    if events != [] {
      var init := events[..|events| - 1];
      DriveKeepsInv(c, init);
      StepKeepsInv(Drive(c, init).ctx.(event := events[|events| - 1]));
    }
  }

  /** Total value of a run of coin events. */
  function CoinSum(events: seq<string>): int
    requires forall k :: 0 <= k < |events| ==> events[k] in Coins
  {
    if events == [] then 0
    else CoinSum(events[..|events| - 1]) + Coins[events[|events| - 1]].1
  }

  /** A run of coins from `waiting` ends in `add_coins` holding exactly their total. */
  lemma {:induction false} CoinsAccumulate(c: Context, events: seq<string>)
    requires Inv(c) && c.state == Some(Waiting)
    requires events != [] && forall k :: 0 <= k < |events| ==> events[k] in Coins
    ensures var r := Drive(c, events);
            !r.raised && r.ctx.state == Some(AddCoins) && r.ctx.amount == CoinSum(events)
    decreases |events|
  {
    var init := events[..|events| - 1];
    var last := events[|events| - 1];
    if init == [] {
      assert Drive(c, init) == Outcome(c, false);
      WaitingStep(c.(event := last));
    } else {
      CoinsAccumulate(c, init);
      DriveKeepsInv(c, init);
      AddCoinsCoin(Drive(c, init).ctx.(event := last));
    }
  }

  /** $2, $1, 25¢, 10¢, 5¢ from `waiting`: after each coin the machine is in
      `add_coins`, holding 200, 300, 325, 335 and finally 340 cents. */
  lemma CoinScenario(n: nat)
    requires 1 <= n <= 5
    ensures var events := ["$2", "$1", "¢25", "¢10", "¢5"];
            var start := GoTo(Configure(), "waiting").ctx;
            var r := Drive(start, events[..n]);
            && !r.raised && r.ctx.state == Some(AddCoins)
            && r.ctx.amount == [200, 300, 325, 335, 340][n - 1]
  {
    var events := ["$2", "$1", "¢25", "¢10", "¢5"];
    ConfigureThenWait();
    ScenarioCoins(events, n);
    CoinsAccumulate(GoTo(Configure(), "waiting").ctx, events[..n]);
  }

  lemma ScenarioCoins(events: seq<string>, n: nat)
    requires events == ["$2", "$1", "¢25", "¢10", "¢5"] && 1 <= n <= 5
    ensures forall k :: 0 <= k < n ==> events[..n][k] in Coins
    ensures CoinSum(events[..n]) == [200, 300, 325, 335, 340][n - 1]
  {
    var e1, e2, e3, e4, e5 := events[..1], events[..2], events[..3], events[..4], events[..5];
    assert e1[..0] == [] && e2[..1] == e1 && e3[..2] == e2 && e4[..3] == e3 && e5[..4] == e4;
    assert CoinSum(e1) == 200;
    assert CoinSum(e2) == 300;
    assert CoinSum(e3) == 325;
    assert CoinSum(e4) == 335;
    assert CoinSum(e5) == 340;
  }
}
