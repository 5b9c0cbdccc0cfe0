/** State: a shopping cart whose payments go through its current network state,
    `Connected` or `Disconnected` (Contents.swift, lines 613-658). */
module State {

  /** The two implementations of the `NetworkState` protocol. */
  datatype NetworkState = Connected | Disconnected

  /** The lines printed while paying. */
  datatype CartEvent =
    | NotEnoughMoney              // "Not enouph money"
    | Processing                  // printed by Connected.payment
    | NetworkUnavailable          // printed by Disconnected.payment
    | PaymentFailed               // "Payment failed"
    | PaymentSuccess(balance: int) // "Payment success. Ballance ..."

  /** `payment(ammount:)` of a state: whether it accepts the payment. Only a connected
      state does. */
  function Payment(state: NetworkState): (accepted: bool)
    ensures accepted <==> state == Connected
  {
    match state
    case Connected => true
    case Disconnected => false
  }

  /** The line that `payment(ammount:)` of a state prints: "Processing" exactly when
      the state accepts the payment. */
  function PaymentEvent(state: NetworkState): (event: CartEvent)
    ensures event == Processing <==> Payment(state)
    ensures event == Processing || event == NetworkUnavailable
  {
    match state
    case Connected => Processing
    case Disconnected => NetworkUnavailable
  }

  /** The balance after `pay(amount:)` from the given state and balance. */
  function PayBalance(state: NetworkState, balance: int, amount: int): (after: int)
    ensures balance < amount ==> after == balance
    ensures state == Disconnected ==> after == balance
    ensures state == Connected && balance >= amount ==> after == balance - amount
    ensures balance >= 0 ==> after >= 0
  {
    if balance < amount then balance
    else if !Payment(state) then balance
    else balance - amount
  }

  /** The lines printed by `pay(amount:)` from the given state and balance. */
  function PayEvents(state: NetworkState, balance: int, amount: int): (events: seq<CartEvent>)
    ensures events != []
    ensures events[0] == NotEnoughMoney <==> balance < amount
    ensures balance < amount ==> |events| == 1
    ensures balance >= amount ==>
              |events| == 2 && events[0] == PaymentEvent(state) &&
              (events[1] == PaymentFailed <==> !Payment(state))
  {
    if balance < amount then [NotEnoughMoney]
    else if !Payment(state) then [PaymentEvent(state), PaymentFailed]
    else [PaymentEvent(state), PaymentSuccess(balance - amount)]
  }

  /** The last line printed by a payment reports success. */
  predicate Succeeded(events: seq<CartEvent>)
  {
    events != [] && events[|events| - 1].PaymentSuccess?
  }

  /** A payment succeeds exactly when the state is connected and the balance covers
      the amount, and then the reported balance is the debited one; in every other
      case the balance is unchanged. */
  lemma PaySucceedsIffConnectedAndCovered(state: NetworkState, balance: int, amount: int)
    ensures Succeeded(PayEvents(state, balance, amount)) <==> state == Connected && balance >= amount
    ensures Succeeded(PayEvents(state, balance, amount)) ==>
              PayEvents(state, balance, amount)[1] == PaymentSuccess(PayBalance(state, balance, amount))
    ensures !Succeeded(PayEvents(state, balance, amount)) ==> PayBalance(state, balance, amount) == balance
  {
  }

  /** The cart: its network state (initially disconnected), its balance (initially 5000)
      and the lines it has printed. */
  class Cart {
    var state: NetworkState
    var balance: int
    var log: seq<CartEvent>

    constructor ()
      ensures state == Disconnected && balance == 5000 && log == []
    {
      state := Disconnected;
      balance := 5000;
      log := [];
    }

    /** `setState`: replaces the network state. */
    method SetState(newState: NetworkState)
      modifies this
      ensures state == newState
      ensures balance == old(balance) && log == old(log)
    {
      state := newState;
    }

    /** `pay(amount:)`: checks the balance first, then asks the state. */
    method Pay(amount: int)
      modifies this
      ensures state == old(state)
      ensures balance == PayBalance(old(state), old(balance), amount)
      ensures log == old(log) + PayEvents(old(state), old(balance), amount)
    {
      if balance < amount {
        log := log + [NotEnoughMoney];
        return;
      }
      log := log + [PaymentEvent(state)];
      if !Payment(state) {
        log := log + [PaymentFailed];
        return;
      }
      balance := balance - amount;
      log := log + [PaymentSuccess(balance)];
    }
  }

  /** The demonstration: a payment while disconnected, then two while connected. */
  method CartDemo() returns (balance: int, log: seq<CartEvent>)
    ensures balance == 3000
    ensures log == [NetworkUnavailable, PaymentFailed, Processing, PaymentSuccess(3000), NotEnoughMoney]
  {
    var cart := new Cart();
    cart.Pay(2000);
    cart.SetState(Connected);
    cart.Pay(2000);
    cart.Pay(6000);
    balance, log := cart.balance, cart.log;
  }
}
