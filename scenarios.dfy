/**
 * Short runs from an engine with no accounts and no history: a deposit of `x`
 * to client `c` under transaction `tx`, followed by the records that act on it.
 */
module Scenarios {
  import opened Ledger

  function DepositOf(c: ClientId, tx: TxId, x: Amount): Transaction {
    Transaction(Kind.Deposit, c, tx, Some(x))
  }

  /** A record of `kind` that refers back to transaction `tx` and carries no amount. */
  function Refer(kind: Kind, c: ClientId, tx: TxId): Transaction {
    Transaction(kind, c, tx, None)
  }

  /** A deposit opens the account with `x` available and `x` in total. */
  lemma DepositScenario(c: ClientId, tx: TxId, x: Amount)
    ensures ProcessAll(Empty, [DepositOf(c, tx, x)]) ==
      Step(State(map[c := Account(c, x, 0, x, false)], map[tx := Entry(Tag.Deposit, x)]), Ok)
  {
    assert [DepositOf(c, tx, x)][1..] == [];
  }

  /** A withdrawal larger than the balance is dropped without an error and without a history entry. */
  lemma OverdrawScenario(c: ClientId, tx: TxId, x: Amount, tx2: TxId, y: Amount)
    requires y > x
    ensures ProcessAll(Empty, [DepositOf(c, tx, x), Transaction(Kind.Withdrawal, c, tx2, Some(y))]) ==
      Step(State(map[c := Account(c, x, 0, x, false)], map[tx := Entry(Tag.Deposit, x)]), Ok)
  {
    var w := Transaction(Kind.Withdrawal, c, tx2, Some(y));
    var s1 := State(map[c := Account(c, x, 0, x, false)], map[tx := Entry(Tag.Deposit, x)]);
    assert Process(Empty, DepositOf(c, tx, x)) == Step(s1, Ok);
    assert Process(s1, w) == Step(s1, Ok);
    assert [w][1..] == [];
    assert ProcessAll(s1, [w]) == Step(s1, Ok);
    assert [DepositOf(c, tx, x), w][1..] == [w];
  }

  /** Disputing the deposit moves `x` from available to held. */
  lemma DisputeScenario(c: ClientId, tx: TxId, x: Amount)
    ensures ProcessAll(Empty, [DepositOf(c, tx, x), Refer(Kind.Dispute, c, tx)]) ==
      Step(State(map[c := Account(c, 0, x, x, false)], map[tx := Entry(Tag.Dispute, x)]), Ok)
  {
    var d := Refer(Kind.Dispute, c, tx);
    var s1 := State(map[c := Account(c, x, 0, x, false)], map[tx := Entry(Tag.Deposit, x)]);
    assert Process(Empty, DepositOf(c, tx, x)) == Step(s1, Ok);
    assert [d][1..] == [];
    assert ProcessAll(s1, [d]) == Step(Process(s1, d).state, Ok);
    assert [DepositOf(c, tx, x), d][1..] == [d];
  }

  /** Resolving the dispute moves `x` back to available and removes the history entry. */
  lemma ResolveScenario(c: ClientId, tx: TxId, x: Amount)
    ensures ProcessAll(Empty, [DepositOf(c, tx, x), Refer(Kind.Dispute, c, tx), Refer(Kind.Resolve, c, tx)]) ==
      Step(State(map[c := Account(c, x, 0, x, false)], map[]), Ok)
  {
    var d, r := Refer(Kind.Dispute, c, tx), Refer(Kind.Resolve, c, tx);
    var s1 := State(map[c := Account(c, x, 0, x, false)], map[tx := Entry(Tag.Deposit, x)]);
    var s2 := State(map[c := Account(c, 0, x, x, false)], map[tx := Entry(Tag.Dispute, x)]);
    assert Process(Empty, DepositOf(c, tx, x)) == Step(s1, Ok);
    assert Process(s1, d) == Step(s2, Ok);
    assert map[tx := Entry(Tag.Dispute, x)] - {tx} == map[];
    assert [r][1..] == [];
    assert ProcessAll(s2, [r]) == Process(s2, r);
    assert [d, r][1..] == [r];
    assert ProcessAll(s1, [d, r]) == ProcessAll(s2, [r]);
    assert [DepositOf(c, tx, x), d, r][1..] == [d, r];
  }

  /**
   * Charging back the dispute releases the held `x` and locks the account,
   * but `total` stays at `x` and the entry stays tagged as disputed.
   */
  lemma ChargebackScenario(c: ClientId, tx: TxId, x: Amount)
    ensures ProcessAll(Empty, [DepositOf(c, tx, x), Refer(Kind.Dispute, c, tx), Refer(Kind.Chargeback, c, tx)]) ==
      Step(State(map[c := Account(c, 0, 0, x, true)], map[tx := Entry(Tag.Dispute, x)]), Ok)
  {
    var d, b := Refer(Kind.Dispute, c, tx), Refer(Kind.Chargeback, c, tx);
    var s1 := State(map[c := Account(c, x, 0, x, false)], map[tx := Entry(Tag.Deposit, x)]);
    var s2 := State(map[c := Account(c, 0, x, x, false)], map[tx := Entry(Tag.Dispute, x)]);
    assert Process(Empty, DepositOf(c, tx, x)) == Step(s1, Ok);
    assert Process(s1, d) == Step(s2, Ok);
    assert [b][1..] == [];
    assert ProcessAll(s2, [b]) == Process(s2, b);
    assert [d, b][1..] == [b];
    assert ProcessAll(s1, [d, b]) == ProcessAll(s2, [b]);
    assert [DepositOf(c, tx, x), d, b][1..] == [d, b];
  }

  /** The first chargeback of the disputed `x` releases it and locks; the second finds nothing held. */
  lemma ChargebackTwice(c: ClientId, tx: TxId, x: Amount)
    requires x > 0
    ensures var b := Refer(Kind.Chargeback, c, tx);
      var s2 := State(map[c := Account(c, 0, x, x, false)], map[tx := Entry(Tag.Dispute, x)]);
      var s3 := State(map[c := Account(c, 0, 0, x, true)], map[tx := Entry(Tag.Dispute, x)]);
      Process(s2, b) == Step(s3, Ok) && Process(s3, b) == Step(s3, Err)
  {
  }

  /** A second chargeback of a positive amount fails, since nothing is held any more. */
  lemma RepeatedChargebackScenario(c: ClientId, tx: TxId, x: Amount)
    requires x > 0
    ensures ProcessAll(Empty, [DepositOf(c, tx, x), Refer(Kind.Dispute, c, tx),
                               Refer(Kind.Chargeback, c, tx), Refer(Kind.Chargeback, c, tx)]) ==
      Step(State(map[c := Account(c, 0, 0, x, true)], map[tx := Entry(Tag.Dispute, x)]), Err)
  {
    var d, b := Refer(Kind.Dispute, c, tx), Refer(Kind.Chargeback, c, tx);
    var s1 := State(map[c := Account(c, x, 0, x, false)], map[tx := Entry(Tag.Deposit, x)]);
    var s2 := State(map[c := Account(c, 0, x, x, false)], map[tx := Entry(Tag.Dispute, x)]);
    var s3 := State(map[c := Account(c, 0, 0, x, true)], map[tx := Entry(Tag.Dispute, x)]);
    assert Process(Empty, DepositOf(c, tx, x)) == Step(s1, Ok);
    assert Process(s1, d) == Step(s2, Ok);
    ChargebackTwice(c, tx, x);
    assert [b, b][1..] == [b];
    assert ProcessAll(s3, [b]) == Step(s3, Err);
    assert ProcessAll(s2, [b, b]) == ProcessAll(s3, [b]);
    assert [d, b, b][1..] == [b, b];
    assert ProcessAll(s1, [d, b, b]) == ProcessAll(s2, [b, b]);
    assert [DepositOf(c, tx, x), d, b, b][1..] == [d, b, b];
  }
}
