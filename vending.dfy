/** The coin-operated vending machine: its price and coin tables, its four states,
    the machine context as a value (`Context`) with the functions that say what each
    hook and each `update()` does to it, and the `VendingMachine` class whose methods
    change its fields exactly as those functions say. */
module Vending {
  import opened Options
  import opened ChangeMaking

  /** `PRODUCTS`: product name to its display label and its price in cents. */
  const Products: map<string, (string, int)> :=
    map["Chocolate" := ("Chocolate", 200), "Cola" := ("Cola", 150), "Milk" := ("Milk", 200),
        "Choc Milk" := ("Choc Milk", 225), "Gum" := ("Gum", 125)]

  /** `COINS`: coin event code to its label and its value in cents. */
  const Coins: map<string, (string, int)> :=
    map["¢5" := ("5", 5), "¢10" := ("10", 10), "¢25" := ("25", 25),
        "$1" := ("100", 100), "$2" := ("200", 200)]

  /** The keys of `COINS` in the order the dict literal lists them (the order in
      which `__init__` iterates over it). */
  const CoinKeys: seq<string> := ["¢5", "¢10", "¢25", "$1", "$2"]

  /** The refund event, sent by the RETURN button (and by the hardware button). */
  const ReturnEvent: string := "RETURN"

  /** The values in cents of the coins `keys`, in order (the append loop of `__init__`). */
  function CoinValuesOf(keys: seq<string>): (r: seq<int>)
    requires forall i :: 0 <= i < |keys| ==> keys[i] in Coins
    ensures |r| == |keys|
    ensures forall i :: 0 <= i < |keys| ==> r[i] == Coins[keys[i]].1
  {
    if keys == [] then [] else CoinValuesOf(keys[..|keys| - 1]) + [Coins[keys[|keys| - 1]].1]
  }

  datatype VState = Waiting | AddCoins | DeliverProduct | CountChange
  {
    /** The state's `_NAME`. */
    function Name(): string
    {
      match this
      case Waiting => "waiting"
      case AddCoins => "add_coins"
      case DeliverProduct => "deliver_product"
      case CountChange => "count_change"
    }
  }

  /** What the machine does to the world, in order: the state hooks it runs and
      the messages it prints ("Buzz... Whir... Click...", "Change due", "Returning"). */
  datatype Effect =
    | Exited(state: string)
    | Entered(state: string)
    | Dispensed(product: string)
    | ChangeDue(cents: int)
    | ReturnedCoin(cents: int)

  /** The effect of returning each coin of `coins`, in order. */
  function Returned(coins: seq<int>): (r: seq<Effect>)
    ensures |r| == |coins|
    ensures forall i :: 0 <= i < |coins| ==> r[i] == ReturnedCoin(coins[i])
  {
    if coins == [] then [] else Returned(coins[..|coins| - 1]) + [ReturnedCoin(coins[|coins| - 1])]
  }

  /** The machine's fields as one value. */
  datatype Context = Context(
    state: Option<VState>,
    states: map<string, VState>,
    event: string,
    amount: int,
    changeDue: int,
    coinValues: seq<int>,
    trace: seq<Effect>)

  /** The result of a call: the context it leaves and whether a dict lookup raised
      (the exception propagates, so the context is what was reached by then). */
  datatype Outcome = Outcome(ctx: Context, raised: bool)

  /** `add_state` files every state under its own name. */
  predicate WellNamed(states: map<string, VState>)
  {
    forall k :: k in states ==> states[k].Name() == k
  }

  /** What construction fixes for good: the registry is well named and the
      denominations are the sorted coin values. */
  predicate WellFormed(c: Context)
  {
    WellNamed(c.states) && c.coinValues == Denominations
  }

  /** All four states are registered. */
  predicate Complete(states: map<string, VState>)
  {
    "waiting" in states && "add_coins" in states
    && "deliver_product" in states && "count_change" in states
  }

  /** The context right after `__init__`: the coin values, sorted largest first,
      are the denominations (`SortedCoinValues`). */
  function Initial(): (r: Context)
    ensures WellFormed(r) && r.state.None? && r.states == map[] && r.event == ""
    ensures r.amount == 0 && r.changeDue == 0 && r.trace == []
  {
    Context(None, map[], "", 0, 0, Denominations, [])
  }

  /** The coin values in dict order, sorted in descending order, are the denominations. */
  lemma SortedCoinValues(t: seq<int>)
    requires t == CoinValuesOf(CoinKeys)
    ensures SortDescending(t) == Denominations
  {
    CoinValuesIncreasing(t);
    SortIncreasing(t);
  }

  /** In dict order the coin values increase: 5, 10, 25, 100, 200. */
  lemma CoinValuesIncreasing(t: seq<int>)
    requires t == CoinValuesOf(CoinKeys)
    ensures forall i, j :: 0 <= i < j < |t| ==> t[i] < t[j]
    ensures Reversed(t) == Denominations
  {
    CoinValuesInOrder();
  }

  lemma CoinValuesInOrder()
    ensures CoinValuesOf(CoinKeys) == [5, 10, 25, 100, 200]
  {
  }

  /** `CoinKeys` is the key set of `COINS`, each key listed once. */
  lemma CoinKeysListCoins()
    ensures |CoinKeys| == |Coins|
    ensures forall k :: k in Coins <==> k in CoinKeys
    ensures forall i, j :: 0 <= i < j < |CoinKeys| ==> CoinKeys[i] != CoinKeys[j]
  {
    assert Coins.Keys == {"¢5", "¢10", "¢25", "$1", "$2"};
  }


  /** `add_state(s)`. */
  function AddStateTo(c: Context, s: VState): (r: Context)
    ensures r == c.(states := r.states)
    ensures r.states.Keys == c.states.Keys + {s.Name()} && r.states[s.Name()] == s
    ensures forall k :: k in c.states && k != s.Name() ==> r.states[k] == c.states[k]
    ensures WellNamed(c.states) ==> WellNamed(r.states)
  {
    c.(states := c.states[s.Name() := s])
  }

  /** `add_coin(coin)` for a known coin. */
  function AddCoinTo(c: Context, coin: string): (r: Context)
    requires coin in Coins
    ensures r == c.(amount := r.amount)
    ensures r.amount > c.amount && (r.amount - c.amount) % 5 == 0
  {
    c.(amount := c.amount + Coins[coin].1)
  }

  /** Only entering `deliver_product` enters another state; this ranks the nesting. */
  function Rank(name: string): nat
  {
    if name == "deliver_product" then 1 else 0
  }

  /** `on_exit` of the current state (no state overrides the empty default). */
  function Exit(c: Context): (r: Context)
    requires c.state.Some?
    ensures r == c.(trace := r.trace)
    ensures |r.trace| == |c.trace| + 1 && r.trace[..|c.trace|] == c.trace
    ensures r.trace[|c.trace|] == Exited(c.state.value.Name())
  {
    c.(trace := c.trace + [Exited(c.state.value.Name())])
  }

  /** `go_to_state(name)`: exit the current state, look the name up (raising if it
      is not registered) and enter the state found. */
  function GoTo(c: Context, name: string): (r: Outcome)
    requires WellNamed(c.states)
    ensures r.ctx.states == c.states && r.ctx.coinValues == c.coinValues
    ensures name !in c.states ==> r.raised && r.ctx.state == c.state
    ensures name in c.states && name != "deliver_product" ==>
              !r.raised && r.ctx.state == Some(c.states[name])
              && r.ctx == c.(state := r.ctx.state, trace := r.ctx.trace)
    decreases Rank(name), 2
  {
    var exited := if c.state.Some? then Exit(c) else c;
    if name !in exited.states then Outcome(exited, true)
    else Enter(exited.(state := Some(exited.states[name])))
  }

  /** `on_entry` of the state just made current. */
  function Enter(c: Context): (r: Outcome)
    requires WellNamed(c.states) && c.state.Some?
    ensures r.ctx.states == c.states && r.ctx.coinValues == c.coinValues
    ensures c.state != Some(DeliverProduct) ==> !r.raised && r.ctx == c.(trace := r.ctx.trace)
    decreases Rank(c.state.value.Name()), 1
  {
    var entered := c.(trace := c.trace + [Entered(c.state.value.Name())]);
    match c.state.value
    case Waiting => Outcome(entered, false)
    case AddCoins => Outcome(entered, false)
    case DeliverProduct => DeliverProductEntry(entered)
    case CountChange => Outcome(entered.(trace := entered.trace + [ChangeDue(entered.changeDue)]), false)
  }

  /** `DeliverProductState.on_entry`: charge the price of the product named by the
      event, dispense it, and go on to count change or back to waiting. */
  function DeliverProductEntry(c: Context): (r: Outcome)
    requires WellNamed(c.states) && c.state == Some(DeliverProduct)
    ensures r.ctx.states == c.states && r.ctx.coinValues == c.coinValues
    decreases 1, 0
  {
    if c.event !in Products then Outcome(c, true)
    else
      var charged := c.(changeDue := c.amount - Products[c.event].1, amount := 0,
                        trace := c.trace + [Dispensed(Products[c.event].0)]);
      if charged.changeDue > 0 then GoTo(charged, "count_change") else GoTo(charged, "waiting")
  }

  /** `WaitingState.update`. */
  function WaitingUpdate(c: Context): (r: Outcome)
    requires WellNamed(c.states)
    ensures r.raised <==> c.event in Coins && "add_coins" !in c.states
    ensures !r.raised ==> r.ctx.state == (if c.event in Coins then Some(AddCoins) else c.state)
    ensures r.ctx.amount == c.amount + (if c.event in Coins then Coins[c.event].1 else 0)
    ensures r.ctx.changeDue == c.changeDue
  {
    if c.event in Coins then GoTo(AddCoinTo(c, c.event), "add_coins")
    else Outcome(c, false)
  }

  /** `AddCoinsState.update`. */
  function AddCoinsUpdate(c: Context): (r: Outcome)
    requires WellNamed(c.states)
    ensures c.event == ReturnEvent && "count_change" in c.states ==>
              !r.raised && r.ctx.state == Some(CountChange) && r.ctx.changeDue == c.amount && r.ctx.amount == 0
    ensures c.event in Coins ==> r == Outcome(AddCoinTo(c, c.event), false)
    ensures c.event in Products && c.amount < Products[c.event].1 ==> r == Outcome(c, false)
    ensures c.event != ReturnEvent && c.event !in Coins && c.event !in Products ==> r == Outcome(c, false)
  {
    if c.event == ReturnEvent then GoTo(c.(changeDue := c.amount, amount := 0), "count_change")
    else if c.event in Coins then Outcome(AddCoinTo(c, c.event), false)
    else if c.event in Products then
      if c.amount >= Products[c.event].1 then GoTo(c, "deliver_product")
      else Outcome(c, false)
    else Outcome(c, false)
  }

  /** `CountChangeState.update`: return coins greedily over the first five
      denominations, and go back to waiting once nothing is due. */
  function CountChangeUpdate(c: Context): (r: Outcome)
    requires WellFormed(c)
    ensures r.raised <==> Greedy(c.changeDue, c.coinValues[..5]).1 == 0 && "waiting" !in c.states
    ensures !r.raised ==> r.ctx.state == (if r.ctx.changeDue == 0 then Some(Waiting) else c.state)
    ensures r.ctx.amount == c.amount && r.ctx.changeDue <= c.changeDue
    ensures c.changeDue >= 0 ==> 0 <= r.ctx.changeDue < 5
  {
    var paid := Greedy(c.changeDue, c.coinValues[..5]);
    var counted := c.(changeDue := paid.1, trace := c.trace + Returned(paid.0));
    if counted.changeDue == 0 then GoTo(counted, "waiting") else Outcome(counted, false)
  }

  /** `update()`: run the current state's update, if there is a current state. */
  function Step(c: Context): (r: Outcome)
    requires WellFormed(c)
    ensures WellFormed(r.ctx) && r.ctx.states == c.states
  {
    match c.state
    case None => Outcome(c, false)
    case Some(s) =>
      match s
      case Waiting => WaitingUpdate(c)
      case AddCoins => AddCoinsUpdate(c)
      case DeliverProduct => Outcome(c, false)
      case CountChange => CountChangeUpdate(c)
  }

  /** The driver loop: store each event on the machine and call `update()`; an
      exception ends the run. */
  function Drive(c: Context, events: seq<string>): (r: Outcome)
    requires WellFormed(c)
    ensures WellFormed(r.ctx) && r.ctx.states == c.states
    decreases |events|
  {
    if events == [] then Outcome(c, false)
    else
      var before := Drive(c, events[..|events| - 1]);
      if before.raised then before
      else Step(before.ctx.(event := events[|events| - 1]))
  }

  /** The vending machine object: the source's fields, updated in place. */
  class VendingMachine {
    var state: Option<VState>
    var states: map<string, VState>
    var event: string
    var amount: int
    var changeDue: int
    var coinValues: seq<int>
    var trace: seq<Effect>

    function Ctx(): Context
      reads this
    {
      Context(state, states, event, amount, changeDue, coinValues, trace)
    }

    ghost predicate Valid()
      reads this
    {
      WellFormed(Ctx())
    }

    /** `__init__`: no state, nothing registered, no money; the coin values are
        collected in table order and sorted in descending order. */
    constructor ()
      ensures Ctx() == Initial() && Valid()
    {
      var values: seq<int> := [];
      for i := 0 to |CoinKeys|
        invariant values == CoinValuesOf(CoinKeys[..i])
      {
        assert CoinKeys[..i + 1][..i] == CoinKeys[..i];
        values := values + [Coins[CoinKeys[i]].1];
      }
      assert CoinKeys[..|CoinKeys|] == CoinKeys;
      state := None;
      states := map[];
      event := "";
      amount := 0;
      changeDue := 0;
      coinValues := SortDescending(values);
      trace := [];
      SortedCoinValues(values);
    }

    method AddState(s: VState)
      requires Valid()
      modifies this
      ensures Ctx() == AddStateTo(old(Ctx()), s) && Valid()
    {
      states := states[s.Name() := s];
    }

    method AddCoin(coin: string)
      requires coin in Coins
      modifies this
      ensures Ctx() == AddCoinTo(old(Ctx()), coin)
    {
      amount := amount + Coins[coin].1;
    }

    method OnExit()
      requires state.Some?
      modifies this
      ensures Ctx() == Exit(old(Ctx()))
    {
      trace := trace + [Exited(state.value.Name())];
    }

    method GoToState(name: string) returns (raised: bool)
      requires WellNamed(states)
      modifies this
      ensures Outcome(Ctx(), raised) == GoTo(old(Ctx()), name)
      ensures old(Valid()) ==> Valid()
      decreases Rank(name), 2
    {
      if state.Some? {
        OnExit();
      }
      if name !in states {
        return true;
      }
      state := Some(states[name]);
      raised := OnEntry();
    }

    method OnEntry() returns (raised: bool)
      requires WellNamed(states) && state.Some?
      modifies this
      ensures Outcome(Ctx(), raised) == Enter(old(Ctx()))
      decreases Rank(state.value.Name()), 1
    {
      trace := trace + [Entered(state.value.Name())];
      raised := false;
      match state.value
      case Waiting =>
      case AddCoins =>
      case DeliverProduct =>
        raised := DeliverProductOnEntry();
      case CountChange =>
        trace := trace + [ChangeDue(changeDue)];
    }

    method DeliverProductOnEntry() returns (raised: bool)
      requires WellNamed(states) && state == Some(DeliverProduct)
      modifies this
      ensures Outcome(Ctx(), raised) == DeliverProductEntry(old(Ctx()))
      decreases 1, 0
    {
      if event !in Products {
        return true;
      }
      changeDue := amount - Products[event].1;
      amount := 0;
      trace := trace + [Dispensed(Products[event].0)];
      if changeDue > 0 {
        raised := GoToState("count_change");
      } else {
        raised := GoToState("waiting");
      }
    }

    method Update() returns (raised: bool)
      requires Valid()
      modifies this
      ensures Outcome(Ctx(), raised) == Step(old(Ctx())) && Valid()
    {
      raised := false;
      if state.Some? {
        match state.value
        case Waiting =>
          raised := WaitingStateUpdate();
        case AddCoins =>
          raised := AddCoinsStateUpdate();
        case DeliverProduct =>
        case CountChange =>
          raised := CountChangeStateUpdate();
      }
    }

    method WaitingStateUpdate() returns (raised: bool)
      requires Valid()
      modifies this
      ensures Outcome(Ctx(), raised) == WaitingUpdate(old(Ctx()))
    {
      raised := false;
      if event in Coins {
        AddCoin(event);
        raised := GoToState("add_coins");
      }
    }

    method AddCoinsStateUpdate() returns (raised: bool)
      requires Valid()
      modifies this
      ensures Outcome(Ctx(), raised) == AddCoinsUpdate(old(Ctx()))
    {
      raised := false;
      if event == ReturnEvent {
        changeDue := amount;
        amount := 0;
        raised := GoToState("count_change");
      } else if event in Coins {
        AddCoin(event);
      } else if event in Products {
        if amount >= Products[event].1 {
          raised := GoToState("deliver_product");
        }
      }
    }

    /** `CountChangeState.update`: pay out the change, then go back to waiting
        once nothing is due. */
    method CountChangeStateUpdate() returns (raised: bool)
      requires Valid()
      modifies this
      ensures Outcome(Ctx(), raised) == CountChangeUpdate(old(Ctx()))
    {
      assert forall k :: 0 <= k < 5 ==> coinValues[k] > 0;
      ReturnCoins();
      raised := false;
      if changeDue == 0 {
        raised := GoToState("waiting");
      }
    }

    /** The outer loop of `CountChangeState.update`: each of the five
        denominations in turn, largest first. */
    method ReturnCoins()
      requires |coinValues| == 5 && forall k :: 0 <= k < 5 ==> coinValues[k] > 0
      modifies this`changeDue, this`trace
      ensures changeDue == Greedy(old(changeDue), coinValues[..5]).1
      ensures trace == old(trace) + Returned(Greedy(old(changeDue), coinValues[..5]).0)
    {
      ghost var due0 := changeDue;
      ghost var trace0 := trace;
      ghost var coins := coinValues[..5];
      ghost var paid: seq<int> := [];
      for coinIndex := 0 to 5
        invariant GreedyPrefix(due0, coins, coinIndex, paid, changeDue)
        invariant trace == trace0 + Returned(paid)
      {
        paid := ReturnDenomination(due0, coins, coinIndex, paid, trace0);
      }
      assert coins[..5] == coins;
    }

    /** One pass of the outer loop: the inner loop for denomination `i` extends the
        greedy change over the first `i` denominations to the first `i + 1`. */
    method ReturnDenomination(ghost due0: int, ghost coins: seq<int>, i: nat, ghost paid: seq<int>,
                              ghost trace0: seq<Effect>) returns (ghost paid': seq<int>)
      requires |coinValues| == 5 && coins == coinValues[..5] && i < 5
      requires forall k :: 0 <= k < |coins| ==> coins[k] > 0
      requires GreedyPrefix(due0, coins, i, paid, changeDue)
      requires trace == trace0 + Returned(paid)
      modifies this`changeDue, this`trace
      ensures GreedyPrefix(due0, coins, i + 1, paid', changeDue)
      ensures trace == trace0 + Returned(paid')
    {
      ghost var before := trace;
      ghost var emitted := ReturnCoinsOf(coinValues[i]);
      GreedyNextCoin(due0, coins, i, emitted, changeDue);
      TraceExtends(trace0, before, paid, emitted);
      paid' := paid + emitted;
    }

    /** The inner loop: return `coin` while at least its value is due. */
    method ReturnCoinsOf(coin: int) returns (ghost emitted: seq<int>)
      requires coin > 0
      modifies this`changeDue, this`trace
      ensures PayOut(old(changeDue), coin) == (emitted, changeDue)
      ensures trace == old(trace) + Returned(emitted)
    {
      ghost var before := changeDue;
      emitted := [];
      assert emitted + PayOut(changeDue, coin).0 == PayOut(changeDue, coin).0;
      while changeDue >= coin
        invariant PayOut(before, coin) == (emitted + PayOut(changeDue, coin).0, PayOut(changeDue, coin).1)
        invariant trace == old(trace) + Returned(emitted)
        decreases changeDue
      {
        PayOutStep(before, changeDue, coin, emitted);
        trace := trace + [ReturnedCoin(coin)];
        changeDue := changeDue - coin;
        emitted := emitted + [coin];
      }
      assert PayOut(changeDue, coin) == ([], changeDue);
      assert emitted + [] == emitted;
    }

    /** `button_action`: the hardware button sends RETURN and runs an update. */
    method ButtonAction() returns (raised: bool)
      requires Valid()
      modifies this
      ensures Outcome(Ctx(), raised) == Step(old(Ctx()).(event := ReturnEvent)) && Valid()
    {
      event := ReturnEvent;
      raised := Update();
    }
  }

  /** `paid` and `left` are the coins returned and the amount still due after the
      outer loop has run over the first `i` denominations. */
  ghost predicate GreedyPrefix(due: int, coins: seq<int>, i: nat, paid: seq<int>, left: int)
  {
    i <= |coins| && (forall k :: 0 <= k < |coins| ==> coins[k] > 0) &&
    Greedy(due, coins[..i]) == (paid, left)
  }

  /** After the inner loop for denomination `i`, the coins returned so far are the
      greedy change over the first `i + 1` denominations. */
  lemma GreedyNextCoin(due: int, coins: seq<int>, i: nat, emitted: seq<int>, rest: int)
    requires forall k :: 0 <= k < |coins| ==> coins[k] > 0
    requires i < |coins|
    requires PayOut(Greedy(due, coins[..i]).1, coins[i]) == (emitted, rest)
    ensures Greedy(due, coins[..i + 1]) == (Greedy(due, coins[..i]).0 + emitted, rest)
  {
    assert coins[..i + 1] == coins[..i] + [coins[i]];
    GreedySnoc(due, coins[..i], coins[i]);
  }

  /** Returning `emitted` after `paid` extends the trace by the effects of both. */
  lemma TraceExtends(start: seq<Effect>, before: seq<Effect>, paid: seq<int>, emitted: seq<int>)
    requires before == start + Returned(paid)
    ensures before + Returned(emitted) == start + Returned(paid + emitted)
  {
    ReturnedConcat(paid, emitted);
    assert before + Returned(emitted) == start + (Returned(paid) + Returned(emitted));
  }

  /** One turn of the inner loop: returning one more `coin` keeps the coins
      returned so far a prefix of the whole payout for that denomination. */
  lemma PayOutStep(before: int, due: int, coin: int, emitted: seq<int>)
    requires coin > 0 && due >= coin
    requires PayOut(before, coin) == (emitted + PayOut(due, coin).0, PayOut(due, coin).1)
    ensures PayOut(before, coin) == ((emitted + [coin]) + PayOut(due - coin, coin).0, PayOut(due - coin, coin).1)
    ensures Returned(emitted + [coin]) == Returned(emitted) + [ReturnedCoin(coin)]
  {
    var later := PayOut(due - coin, coin);
    assert PayOut(due, coin) == ([coin] + later.0, later.1);
    assert emitted + ([coin] + later.0) == (emitted + [coin]) + later.0;
    assert (emitted + [coin])[..|emitted|] == emitted;
  }

  lemma {:induction false} ReturnedConcat(a: seq<int>, b: seq<int>)
    ensures Returned(a + b) == Returned(a) + Returned(b)
    decreases |b|
  {
    if b == [] {
      assert a + b == a;
    } else {
      var init := b[..|b| - 1];
      assert (a + b)[..|a + b| - 1] == a + init;
      ReturnedConcat(a, init);
    }
  }
}
