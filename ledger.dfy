/**
 * The bank account of script.js: `Account` (lines 419-455), whose ledger is
 * protected by naming convention only, and `AccountEncap` (lines 482-537),
 * whose ledger is a private field and whose mutators return the receiver so
 * that calls can be chained.
 *
 * Both classes keep the ledger (`movements`) as a sequence value and a ghost
 * record of the public calls made on them (`calls`); `Valid()` ties the two
 * together through `Replay`, the specification of what a run of calls writes.
 */
module Ledger {

  /** One call on an account's public interface. */
  datatype Movement = Deposit(amount: int) | Withdraw(amount: int) | RequestLoan(amount: int)

  /** `_approveLoan`: the loan policy of both account classes grants every request. */
  function ApproveLoan(amount: int): bool
  {
    true
  }

  /** Whether a call writes to the ledger: every call does, except a refused loan. */
  predicate Recorded(m: Movement)
  {
    !m.RequestLoan? || ApproveLoan(m.amount)
  }

  /** The signed amount a call writes: a withdrawal writes its negation. */
  function Amount(m: Movement): int
  {
    match m
    case Deposit(v) => v
    case Withdraw(v) => -v
    case RequestLoan(v) => v
  }

  /** The ledger of a new account on which `calls` were made, in that order. */
  function Replay(calls: seq<Movement>): seq<int>
  {
    if calls == [] then []
    else
      var last := calls[|calls| - 1];
      Replay(calls[..|calls| - 1]) + (if Recorded(last) then [Amount(last)] else [])
  }

  /** Every call, loans included, adds exactly one ledger entry. */
  lemma {:induction false} ReplayLength(calls: seq<Movement>)
    ensures |Replay(calls)| == |calls|
  {
    if calls != [] {
      ReplayLength(calls[..|calls| - 1]);
    }
  }

  /** Entry `i` of the ledger is the signed amount of call `i`: history is kept in order. */
  lemma {:induction false} ReplayAt(calls: seq<Movement>, i: nat)
    requires i < |calls|
    ensures |Replay(calls)| == |calls| && Replay(calls)[i] == Amount(calls[i])
  {
    ReplayLength(calls);
    var init := calls[..|calls| - 1];
    ReplayLength(init);
    if i < |init| {
      ReplayAt(init, i);
    }
  }

  /** Calls made one after another compose: the ledger only ever grows at its end. */
  lemma {:induction false} ReplayAppend(first: seq<Movement>, rest: seq<Movement>)
    ensures Replay(first + rest) == Replay(first) + Replay(rest)
  {
    if rest == [] {
      assert first + rest == first;
    } else {
      var init := rest[..|rest| - 1];
      assert (first + rest)[..|first + rest| - 1] == first + init;
      assert (first + rest)[|first + rest| - 1] == rest[|rest| - 1];
      ReplayAppend(first, init);
    }
  }

  /** `withdraw(v)` leaves exactly the ledger `deposit(-v)` would, wherever it is called. */
  lemma WithdrawIsNegatedDeposit(before: seq<Movement>, v: int, after: seq<Movement>)
    ensures Replay(before + [Withdraw(v)] + after) == Replay(before + [Deposit(-v)] + after)
  {
    ReplayAppend(before + [Withdraw(v)], after);
    ReplayAppend(before + [Deposit(-v)], after);
    ReplayAppend(before, [Withdraw(v)]);
    ReplayAppend(before, [Deposit(-v)]);
  }

  /** Since every loan is approved, `requestLoan(v)` leaves the ledger `deposit(v)` would. */
  lemma LoanIsDeposit(before: seq<Movement>, v: int, after: seq<Movement>)
    ensures Replay(before + [RequestLoan(v)] + after) == Replay(before + [Deposit(v)] + after)
  {
    ReplayAppend(before + [RequestLoan(v)], after);
    ReplayAppend(before + [Deposit(v)], after);
    ReplayAppend(before, [RequestLoan(v)]);
    ReplayAppend(before, [Deposit(v)]);
  }

  /** `Account` (script.js:419-455): mutators return nothing. */
  class Account {
    const owner: string
    const currency: string
    /** Stored by the constructor and never read by any operation. */
    const pin: int
    /** `_movements`: the ledger, changed only by the methods below. */
    var movements: seq<int>
    /** The public calls made so far, oldest first. */
    ghost var calls: seq<Movement>

    ghost predicate Valid()
      reads this
    {
      movements == Replay(calls)
    }

    constructor (owner: string, currency: string, pin: int)
      ensures Valid()
      ensures this.owner == owner && this.currency == currency && this.pin == pin
      ensures movements == [] && calls == []
    {
      this.owner := owner;
      this.currency := currency;
      this.pin := pin;
      movements := [];
      calls := [];
    }

    /** `getMovements`: a snapshot of the whole history, one entry per call, in call order. */
    method GetMovements() returns (ledger: seq<int>)
      requires Valid()
      ensures ledger == movements
      ensures |ledger| == |calls|
      ensures forall i :: 0 <= i < |ledger| ==> ledger[i] == Amount(calls[i])
    {
      ledger := movements;
      ReplayLength(calls);
      forall i | 0 <= i < |ledger|
        ensures ledger[i] == Amount(calls[i])
      {
        ReplayAt(calls, i);
      }
    }

    /** `deposit`: appends the amount as given, with no check of sign or size. */
    method Deposit(amount: int)
      requires Valid()
      modifies this
      ensures Valid()
      ensures movements == old(movements) + [amount]
      ensures calls == old(calls) + [Movement.Deposit(amount)]
    {
      movements := movements + [amount];
      calls := calls + [Movement.Deposit(amount)];
    }

    /** `withdraw`: a deposit of the negated amount. */
    method Withdraw(amount: int)
      requires Valid()
      modifies this
      ensures Valid()
      ensures movements == old(movements) + [-amount]
      ensures calls == old(calls) + [Movement.Withdraw(amount)]
    {
      Deposit(-amount);
      calls := old(calls) + [Movement.Withdraw(amount)];
    }

    /** `requestLoan`: deposits the amount when the policy approves it, which it always does. */
    method RequestLoan(amount: int)
      requires Valid()
      modifies this
      ensures Valid()
      ensures movements == old(movements) + (if ApproveLoan(amount) then [amount] else [])
      ensures movements == old(movements) + [amount]
      ensures calls == old(calls) + [Movement.RequestLoan(amount)]
    {
      if ApproveLoan(amount) {
        Deposit(amount);
      }
      calls := old(calls) + [Movement.RequestLoan(amount)];
    }
  }

  /** `AccountEncap` (script.js:482-537): the mutators return the receiver. */
  class AccountEncap {
    const owner: string
    const currency: string
    /** `#pin`: stored by the constructor and never read by any operation. */
    const pin: int
    /** `#movements`: the ledger, changed only by the methods below. */
    var movements: seq<int>
    /** The public calls made so far, oldest first. */
    ghost var calls: seq<Movement>

    ghost predicate Valid()
      reads this
    {
      movements == Replay(calls)
    }

    constructor (owner: string, currency: string, pin: int)
      ensures Valid()
      ensures this.owner == owner && this.currency == currency && this.pin == pin
      ensures movements == [] && calls == []
    {
      this.owner := owner;
      this.currency := currency;
      this.pin := pin;
      movements := [];
      calls := [];
    }

    /** `getMovements`: a snapshot of the whole history, one entry per call, in call order. */
    method GetMovements() returns (ledger: seq<int>)
      requires Valid()
      ensures ledger == movements
      ensures |ledger| == |calls|
      ensures forall i :: 0 <= i < |ledger| ==> ledger[i] == Amount(calls[i])
    {
      ledger := movements;
      ReplayLength(calls);
      forall i | 0 <= i < |ledger|
        ensures ledger[i] == Amount(calls[i])
      {
        ReplayAt(calls, i);
      }
    }

    /** `deposit`: appends the amount as given and returns this same account. */
    method Deposit(amount: int) returns (self: AccountEncap)
      requires Valid()
      modifies this
      ensures self == this && Valid()
      ensures movements == old(movements) + [amount]
      ensures calls == old(calls) + [Movement.Deposit(amount)]
    {
      movements := movements + [amount];
      calls := calls + [Movement.Deposit(amount)];
      self := this;
    }

    /** `withdraw`: a deposit of the negated amount; returns this same account. */
    method Withdraw(amount: int) returns (self: AccountEncap)
      requires Valid()
      modifies this
      ensures self == this && Valid()
      ensures movements == old(movements) + [-amount]
      ensures calls == old(calls) + [Movement.Withdraw(amount)]
    {
      var _ := Deposit(-amount);
      calls := old(calls) + [Movement.Withdraw(amount)];
      self := this;
    }

    /**
     * `requestLoan`: deposits the amount when the policy approves it and then
     * returns this account; a refused request would return nothing (null).
     */
    method RequestLoan(amount: int) returns (self: AccountEncap?)
      requires Valid()
      modifies this
      ensures Valid()
      ensures self == (if ApproveLoan(amount) then this else null)
      ensures movements == old(movements) + (if ApproveLoan(amount) then [amount] else [])
      ensures self == this && movements == old(movements) + [amount]
      ensures calls == old(calls) + [Movement.RequestLoan(amount)]
    {
      self := null;
      if ApproveLoan(amount) {
        var _ := Deposit(amount);
        self := this;
      }
      calls := old(calls) + [Movement.RequestLoan(amount)];
    }
  }

  /** The run on `acc1` at script.js:457-465. */
  method JonasRun() returns (ledger: seq<int>)
    ensures ledger == [250, -140, 350, 100, 1000]
  {
    var acc1 := new Account("Jonas", "EUR", 1111);
    acc1.Deposit(250);
    acc1.Withdraw(140);
    acc1.Deposit(350);
    acc1.Deposit(100);
    acc1.RequestLoan(1000);
    ledger := acc1.GetMovements();
  }

  /**
   * The run on `acc2` at script.js:538-553: the same five calls, then the chain
   * `deposit(300).deposit(500).withdraw(35).requestLoan(25000).withdraw(4000)`,
   * every link of which is called on `acc2` itself.
   */
  method BobRun() returns (beforeChain: seq<int>, afterChain: seq<int>)
    ensures beforeChain == [250, -140, 350, 100, 1000]
    ensures afterChain == [250, -140, 350, 100, 1000, 300, 500, -35, 25000, -4000]
  {
    var acc2 := new AccountEncap("Bob", "EUR", 2222);
    var link := acc2.Deposit(250);
    link := acc2.Withdraw(140);
    link := acc2.Deposit(350);
    link := acc2.Deposit(100);
    var loan := acc2.RequestLoan(1000);
    beforeChain := acc2.GetMovements();

    link := acc2.Deposit(300);
    link := link.Deposit(500);
    link := link.Withdraw(35);
    loan := link.RequestLoan(25000);
    link := loan.Withdraw(4000);
    assert link == acc2;
    afterChain := acc2.GetMovements();
  }
}
