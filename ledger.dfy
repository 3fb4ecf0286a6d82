/** The globals of the banking script that options 1, 2 and 3 of the menu
    loop read and update in place. */
module Ledger {
  import opened LedgerSpec

  class Bank {
    /** `saldo` */
    var balance: real
    /** `extrato`, one entry per statement line */
    var statement: seq<Entry>
    /** `numero_saques` */
    var withdrawals: nat
    /** `transacoes_hoje` */
    var transactions: nat

    /** The fields as a value of the specification. */
    function Snapshot(): State
      reads this
    {
      State(balance, statement, withdrawals, transactions)
    }

    ghost predicate Valid()
      reads this
    {
      Invariant(Snapshot())
    }

    constructor ()
      ensures Valid() && Snapshot() == Initial
    {
      balance, statement, withdrawals, transactions := 0.0, [], 0, 0;
    }

    /** Option 1. */
    method Deposit(amount: real) returns (outcome: Outcome)
      requires Valid()
      modifies this
      ensures Valid()
      ensures StepResult(Snapshot(), outcome) == Step(old(Snapshot()), DepositRequest(amount))
      ensures outcome == Ok ==>
        && balance == old(balance) + amount
        && statement == old(statement) + [Entry(Kind.Deposit, amount)]
        && withdrawals == old(withdrawals)
        && transactions == old(transactions) + 1
      ensures outcome != Ok ==> Snapshot() == old(Snapshot())
    {
      StepPreservesInvariant(Snapshot(), DepositRequest(amount));
      if transactions >= MaxTransactions {
        return DailyTxCap;
      }
      if amount > 0.0 {
        balance := balance + amount;
        statement := statement + [Entry(Kind.Deposit, amount)];
        transactions := transactions + 1;
        outcome := Ok;
      } else {
        outcome := InvalidAmount;
      }
    }

    /** Option 2. */
    method Withdraw(amount: real) returns (outcome: Outcome)
      requires Valid()
      modifies this
      ensures Valid()
      ensures StepResult(Snapshot(), outcome) == Step(old(Snapshot()), WithdrawRequest(amount))
      ensures outcome == Ok ==>
        && balance == old(balance) - amount
        && statement == old(statement) + [Entry(Withdrawal, amount)]
        && withdrawals == old(withdrawals) + 1
        && transactions == old(transactions) + 1
      ensures outcome != Ok ==> Snapshot() == old(Snapshot())
    {
      StepPreservesInvariant(Snapshot(), WithdrawRequest(amount));
      if transactions >= MaxTransactions {
        return DailyTxCap;
      }
      var overBalance := amount > balance;
      var overLimit := amount > WithdrawalLimit;
      var overCount := withdrawals >= MaxWithdrawals;
      if overBalance {
        outcome := InsufficientFunds;
      } else if overLimit {
        outcome := OverLimit;
      } else if overCount {
        outcome := TooManyWithdrawals;
      } else if amount > 0.0 {
        balance := balance - amount;
        statement := statement + [Entry(Withdrawal, amount)];
        withdrawals := withdrawals + 1;
        transactions := transactions + 1;
        outcome := Ok;
      } else {
        outcome := InvalidAmount;
      }
    }

    /** Option 3: reads the statement and the balance, changes nothing. */
    method Statement() returns (view: StatementView)
      ensures view == Report(Snapshot())
      ensures view.balance == balance
      ensures view.NoMovements? <==> statement == []
    {
      if statement == [] {
        view := NoMovements(balance);
      } else {
        view := Movements(statement, balance);
      }
    }
  }

  /** A session that deposits and withdraws through the class keeps the
      invariant, and what it reports agrees with the specification. */
  method SessionScenario() returns (outcomes: seq<Outcome>, balance: real)
    ensures outcomes == [Ok, Ok, InsufficientFunds]
    ensures balance == 50.0
  {
    var bank := new Bank();
    var o1 := bank.Deposit(100.0);
    var o2 := bank.Withdraw(50.0);
    var o3 := bank.Withdraw(1000.0);
    outcomes, balance := [o1, o2, o3], bank.balance;
  }
}
