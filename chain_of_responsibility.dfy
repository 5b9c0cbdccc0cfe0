/** Chain of Responsibility: a chain of accounts, each of which either pays a purchase
    itself or hands it on to its successor (Contents.swift, lines 324-376).

    The chain is a sequence of accounts whose successor of index `i` is index `i + 1`;
    the last account has no successor. */
module ChainOfResponsibility {
  import opened Optional

  /** One account of the chain: its title and its (unbounded) integer balance. */
  datatype Account = Account(title: string, balance: int)

  /** What `pay` prints: the purchase made by one account with its new balance,
      or the "I have no money :(" line when nobody in the chain can pay. */
  datatype Event = Bought(amount: int, balance: int, title: string) | NoMoney

  /** `canPay`: the account's balance covers the amount, that is, paying it would
      not leave the balance negative. */
  predicate CanPay(account: Account, amount: int)
    ensures CanPay(account, amount) <==> account.balance - amount >= 0
  {
    account.balance >= amount
  }

  /** The first account at or after `from` that can pay, if there is one. */
  function FirstPayer(accounts: seq<Account>, from: nat, amount: int): (payer: Option<nat>)
    requires from <= |accounts|
    ensures payer.Some? ==> from <= payer.value < |accounts| && CanPay(accounts[payer.value], amount)
    ensures payer.Some? ==> forall j :: from <= j < payer.value ==> !CanPay(accounts[j], amount)
    ensures payer.None? ==> forall j :: from <= j < |accounts| ==> !CanPay(accounts[j], amount)
    decreases |accounts| - from
  {
    if from == |accounts| then None
    else if CanPay(accounts[from], amount) then Some(from)
    else FirstPayer(accounts, from + 1, amount)
  }

  /** Account `k` after it has paid `amount`. */
  function Debit(accounts: seq<Account>, k: nat, amount: int): seq<Account>
    requires k < |accounts|
  {
    accounts[k := accounts[k].(balance := accounts[k].balance - amount)]
  }

  /** The accounts after `pay(amount)` was called on the account at index `from`. */
  function PayChain(accounts: seq<Account>, from: nat, amount: int): (after: seq<Account>)
    requires from < |accounts|
    ensures |after| == |accounts|
    ensures forall j :: 0 <= j < |accounts| ==> after[j].title == accounts[j].title
    ensures forall j :: 0 <= j < |accounts| && FirstPayer(accounts, from, amount) != Some(j) ==>
              after[j] == accounts[j]
    ensures forall j :: 0 <= j < |accounts| && FirstPayer(accounts, from, amount) == Some(j) ==>
              after[j].balance == accounts[j].balance - amount
  {
    match FirstPayer(accounts, from, amount)
    case Some(k) => Debit(accounts, k, amount)
    case None => accounts
  }

  /** The line printed by `pay(amount)` called on the account at index `from`. */
  function PayEvent(accounts: seq<Account>, from: nat, amount: int): (event: Event)
    requires from < |accounts|
    ensures event == NoMoney <==> FirstPayer(accounts, from, amount).None?
    ensures event.Bought? ==>
              var k := FirstPayer(accounts, from, amount).value;
              event.amount == amount && event.title == accounts[k].title &&
              event.balance == PayChain(accounts, from, amount)[k].balance
  {
    match FirstPayer(accounts, from, amount)
    case Some(k) => Bought(amount, accounts[k].balance - amount, accounts[k].title)
    case None => NoMoney
  }

  /** Sum of the balances of a chain. */
  function Total(accounts: seq<Account>): int
  {
    if accounts == [] then 0 else accounts[0].balance + Total(accounts[1..])
  }

  /** PayChain follows the three branches of `pay`: the account pays itself when it can,
      otherwise forwards to its successor, and reports "no money" when it is the last. */
  lemma PayUnfolds(accounts: seq<Account>, from: nat, amount: int)
    requires from < |accounts|
    ensures CanPay(accounts[from], amount) ==>
              PayChain(accounts, from, amount) == Debit(accounts, from, amount) &&
              PayEvent(accounts, from, amount) ==
                Bought(amount, accounts[from].balance - amount, accounts[from].title)
    ensures !CanPay(accounts[from], amount) && from + 1 < |accounts| ==>
              PayChain(accounts, from, amount) == PayChain(accounts, from + 1, amount) &&
              PayEvent(accounts, from, amount) == PayEvent(accounts, from + 1, amount)
    ensures !CanPay(accounts[from], amount) && from + 1 == |accounts| ==>
              PayChain(accounts, from, amount) == accounts &&
              PayEvent(accounts, from, amount) == NoMoney
  {
  }

  /** "I have no money :(" is reported exactly when no account from `from` onwards
      can pay, and then no balance changes. */
  lemma NoMoneyIffNobodyCanPay(accounts: seq<Account>, from: nat, amount: int)
    requires from < |accounts|
    ensures PayEvent(accounts, from, amount) == NoMoney <==>
              forall j :: from <= j < |accounts| ==> !CanPay(accounts[j], amount)
    ensures PayEvent(accounts, from, amount) == NoMoney ==> PayChain(accounts, from, amount) == accounts
  {
    if PayEvent(accounts, from, amount) != NoMoney {
      var k := FirstPayer(accounts, from, amount).value;
      assert from <= k < |accounts| && CanPay(accounts[k], amount);
    }
  }

  /** Paying never drives a balance below zero: the account that pays had at least
      the amount, and every other balance is untouched. */
  lemma PayKeepsBalancesNonNegative(accounts: seq<Account>, from: nat, amount: int)
    requires from < |accounts|
    requires forall j :: 0 <= j < |accounts| ==> accounts[j].balance >= 0
    ensures forall j :: 0 <= j < |accounts| ==> PayChain(accounts, from, amount)[j].balance >= 0
  {
  }

  /** Debiting one account lowers the sum of the balances by exactly the amount. */
  lemma {:induction false} TotalOfDebit(accounts: seq<Account>, k: nat, amount: int)
    requires k < |accounts|
    ensures Total(Debit(accounts, k, amount)) == Total(accounts) - amount
  {
    var after := Debit(accounts, k, amount);
    if k == 0 {
      assert after[1..] == accounts[1..];
    } else {
      TotalOfDebit(accounts[1..], k - 1, amount);
      assert after[1..] == Debit(accounts[1..], k - 1, amount);
    }
  }

  /** Exactly `amount` leaves the chain when someone pays, and nothing otherwise. */
  lemma TotalAfterPay(accounts: seq<Account>, from: nat, amount: int)
    requires from < |accounts|
    ensures Total(PayChain(accounts, from, amount)) ==
              Total(accounts) - (if PayEvent(accounts, from, amount).Bought? then amount else 0)
  {
    match FirstPayer(accounts, from, amount)
    case Some(k) => TotalOfDebit(accounts, k, amount);
    case None =>
  }

  /** The accounts of a chain, linked by `setSuccessor`, and the lines they print. */
  class Chain {
    var accounts: seq<Account>
    var log: seq<Event>

    /** A single account with no successor (`Account(ballancce:title:)`). */
    constructor (first: Account)
      ensures accounts == [first] && log == []
    {
      accounts := [first];
      log := [];
    }

    /** `setSuccessor` on the account at index `i`: `next` (the new successor followed
        by its own successors) becomes the rest of the chain after `i`. */
    method SetSuccessor(i: nat, next: seq<Account>)
      requires i < |accounts|
      requires next != []
      modifies this
      ensures accounts == old(accounts)[..i + 1] + next
      ensures accounts[i + 1] == next[0]
      ensures log == old(log)
    {
      accounts := accounts[..i + 1] + next;
    }

    /** `pay` called on the account at index `from`: walks the successors until one
        can pay, debits it, and logs what was printed. */
    method Pay(from: nat, amount: int)
      requires from < |accounts|
      modifies this
      ensures accounts == PayChain(old(accounts), from, amount)
      ensures log == old(log) + [PayEvent(old(accounts), from, amount)]
    {
      var i := from;
      while i < |accounts| && !CanPay(accounts[i], amount)
        invariant from <= i <= |accounts|
        invariant FirstPayer(accounts, i, amount) == FirstPayer(accounts, from, amount)
        decreases |accounts| - i
      {
        i := i + 1;
      }
      if i < |accounts| {
        accounts := Debit(accounts, i, amount);
        log := log + [Bought(amount, accounts[i].balance, accounts[i].title)];
      } else {
        log := log + [NoMoney];
      }
    }

    function Balances(): (balances: seq<int>)
      reads this
      ensures |balances| == |accounts|
      ensures forall j :: 0 <= j < |accounts| ==> balances[j] == accounts[j].balance
    {
      seq(|accounts|, j requires 0 <= j < |accounts| reads this => accounts[j].balance)
    }
  }

  /** The demonstration: cash -> debet card -> credit card, then three purchases. */
  method ChainDemo() returns (balances: seq<int>, log: seq<Event>)
    ensures balances == [5000, 9000, 7000]
    ensures log == [Bought(5000, 5000, "Cash"), Bought(6000, 9000, "Debet card"),
                    Bought(13000, 7000, "Credit card")]
  {
    var chain := new Chain(Account("Cash", 10000));
    chain.SetSuccessor(0, [Account("Debet card", 15000)]);
    chain.SetSuccessor(1, [Account("Credit card", 20000)]);
    assert FirstPayer(chain.accounts, 0, 5000) == Some(0);
    chain.Pay(0, 5000);
    assert FirstPayer(chain.accounts, 0, 6000) == Some(1);
    chain.Pay(0, 6000);
    assert FirstPayer(chain.accounts, 0, 13000) == Some(2);
    chain.Pay(0, 13000);
    balances := chain.Balances();
    log := chain.log;
  }
}
