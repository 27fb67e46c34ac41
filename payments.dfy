/**
 * The imperative engine: client objects whose balance fields are updated in
 * place, and an engine object that owns the client map and the transaction
 * history and processes records one by one. Every method is proved to have
 * the effect of the corresponding function of module Ledger on the abstract
 * state `Model()`.
 */
module Payments {
  import opened Ledger

  /** One client account, updated in place. */
  class Client {
    const id: ClientId
    var available: Amount
    var held: Amount
    var total: Amount
    var locked: bool

    /** The account held by this object, as a value. */
    function Snapshot(): Account
      reads this
    {
      Account(id, available, held, total, locked)
    }

    /** A fresh account: zero balances, unlocked. */
    constructor (id: ClientId)
      ensures Snapshot() == NewAccount(id)
    {
      this.id := id;
      available, held, total := 0, 0, 0;
      locked := false;
    }

    /** Adds `amount` to the named field. */
    method Increase(f: Field, amount: Amount)
      modifies this
      ensures Snapshot() == Ledger.Increase(old(Snapshot()), f, amount)
    {
      match f
      case Available => available := available + amount;
      case Held => held := held + amount;
      case Total => total := total + amount;
    }

    /** Subtracts `amount` from the named field if it covers it, else fails. */
    method Decrease(f: Field, amount: Amount) returns (r: Outcome)
      modifies this
      ensures (Snapshot(), r) == Ledger.Decrease(old(Snapshot()), f, amount)
    {
      match f {
        case Available =>
          if available >= amount {
            available := available - amount;
            return Ok;
          }
        case Held =>
          if held >= amount {
            held := held - amount;
            return Ok;
          }
        case Total =>
          if total >= amount {
            total := total - amount;
            return Ok;
          }
      }
      return Err;
    }
  }

  /** The owner of the client map and the transaction history of one run. */
  class Engine {
    var clientMap: map<ClientId, Client>
    var txnMap: map<TxId, Entry>

    /** Each client object is stored under its own id, so distinct keys hold distinct objects. */
    ghost predicate Valid()
      reads this`clientMap
    {
      forall k | k in clientMap :: clientMap[k].id == k
    }

    /** The client map as values. */
    ghost function Accounts(): map<ClientId, Account>
      reads this`clientMap, clientMap.Values
    {
      map k | k in clientMap :: clientMap[k].Snapshot()
    }

    /** The abstract state of the engine. */
    ghost function Model(): State
      reads this, clientMap.Values
    {
      State(Accounts(), txnMap)
    }

    /** Every client object held now was held before or has been allocated since. */
    twostate predicate OnlyNewClients()
      reads this
    {
      forall c | c in clientMap.Values :: c in old(clientMap.Values) || fresh(c)
    }

    constructor ()
      ensures Valid() && Model() == Empty
    {
      clientMap := map[];
      txnMap := map[];
    }

    /** After a change to client `c` alone, the abstract accounts differ only at `c.id`. */
    twostate lemma ClientUpdated(c: Client)
      requires old(Valid()) && unchanged(this)
      requires c.id in clientMap && clientMap[c.id] == c
      requires forall x | x in clientMap.Values && x != c :: unchanged(x)
      ensures Valid()
      ensures Accounts() == old(Accounts())[c.id := c.Snapshot()]
    {
      forall k | k in clientMap
        ensures Accounts()[k] == old(Accounts())[c.id := c.Snapshot()][k]
      {
        assert clientMap[k] in clientMap.Values;
      }
    }

    /** The client stored under `id`, created with zero balances if absent. */
    method GetClient(id: ClientId) returns (c: Client)
      requires Valid()
      modifies this
      ensures Valid() && OnlyNewClients()
      ensures id in clientMap && c == clientMap[id]
      ensures txnMap == old(txnMap)
      ensures Accounts() == Ledger.GetClient(old(Accounts()), id)
    {
      if id in clientMap {
        c := clientMap[id];
      } else {
        c := new Client(id);
        clientMap := clientMap[id := c];
      }
    }

    /** Deposit: credits `total` and `available` of an unlocked account. */
    method Deposit(t: Transaction) returns (r: Outcome)
      requires Valid() && t.amount.Some?
      modifies this, clientMap.Values
      ensures Valid() && OnlyNewClients()
      ensures Step(Model(), r) == DepositRule(old(Model()), t)
    {
      var amount := t.amount.value;
      var client := GetClient(t.client);
      if client.locked {
        return Ok;
      }
      client.Increase(Total, amount);
      client.Increase(Available, amount);
      return Ok;
    }

    /** Withdrawal: debits `total` and then `available` of an unlocked account, each only if covered. */
    method Withdrawal(t: Transaction) returns (r: Outcome)
      requires Valid() && t.amount.Some?
      modifies this, clientMap.Values
      ensures Valid() && OnlyNewClients()
      ensures Step(Model(), r) == WithdrawalRule(old(Model()), t)
    {
      var amount := t.amount.value;
      var client := GetClient(t.client);
      if client.locked {
        return Ok;
      }
      label total:
      r := client.Decrease(Total, amount);
      ClientUpdated@total(client);
      if r == Err {
        return;
      }
      label available:
      r := client.Decrease(Available, amount);
      ClientUpdated@available(client);
    }

    /** Dispute: holds the recorded amount of a known transaction on an unlocked account. */
    method Dispute(t: Transaction) returns (r: Outcome)
      requires Valid()
      modifies this, clientMap.Values
      ensures Valid() && OnlyNewClients()
      ensures Step(Model(), r) == DisputeRule(old(Model()), t)
    {
      ghost var s := Model();
      var info := GetTxnInfo(txnMap, t.tx);
      if info.Some? {
        var amount := info.value.amount;
        var client := GetClient(t.client);
        ghost var clients := Accounts();
        if client.locked {
          assert DisputeRule(s, t) == Step(s.(clients := clients), Ok);
          return Ok;
        }
        ghost var c := clients[t.client];
        label held:
        client.Increase(Held, amount);
        ClientUpdated@held(client);
        label available:
        r := client.Decrease(Available, amount);
        ClientUpdated@available(client);
        ghost var c2 := Ledger.Decrease(Ledger.Increase(c, Held, amount), Available, amount);
        assert client.Snapshot() == c2.0 && r == c2.1;
        assert Accounts() == clients[t.client := c2.0];
        if r == Err {
          assert DisputeRule(s, t) == Step(s.(clients := clients[t.client := c2.0]), Err);
          return;
        }
        txnMap := txnMap[t.tx := Entry(Tag.Dispute, amount)];
        assert DisputeRule(s, t) == Step(State(clients[t.client := c2.0], txnMap), Ok);
      }
      return Ok;
    }

    /** Resolve: releases the amount of a disputed transaction back to `available`. */
    method Resolve(t: Transaction) returns (r: Outcome)
      requires Valid()
      modifies this, clientMap.Values
      ensures Valid() && OnlyNewClients()
      ensures Step(Model(), r) == ResolveRule(old(Model()), t)
    {
      var info := GetTxnInfo(txnMap, t.tx);
      if info.Some? && info.value.tag == Tag.Dispute {
        var amount := info.value.amount;
        var client := GetClient(t.client);
        if client.locked {
          return Ok;
        }
        label held:
        r := client.Decrease(Held, amount);
        ClientUpdated@held(client);
        if r == Err {
          return;
        }
        label available:
        client.Increase(Available, amount);
        ClientUpdated@available(client);
        txnMap := txnMap - {t.tx};
      }
      return Ok;
    }

    /** Chargeback: locks the account and debits `held` by the disputed amount. */
    method Chargeback(t: Transaction) returns (r: Outcome)
      requires Valid()
      modifies this, clientMap.Values
      ensures Valid() && OnlyNewClients()
      ensures Step(Model(), r) == ChargebackRule(old(Model()), t)
    {
      var info := GetTxnInfo(txnMap, t.tx);
      if info.Some? && info.value.tag == Tag.Dispute {
        var amount := info.value.amount;
        var client := GetClient(t.client);
        client.locked := true;
        r := client.Decrease(Held, amount);
        if r == Err {
          return;
        }
      }
      return Ok;
    }

    /** Processes one record against the client map and the history. */
    method Process(t: Transaction) returns (r: Outcome)
      requires Valid() && HasRequiredAmount(t)
      modifies this, clientMap.Values
      ensures Valid() && OnlyNewClients()
      ensures Step(Model(), r) == Ledger.Process(old(Model()), t)
    {
      match t.kind {
        case Deposit =>
          txnMap := txnMap[t.tx := Entry(Tag.Deposit, t.amount.value)];
          r := Deposit(t);
        case Withdrawal =>
          var w := Withdrawal(t);
          if w == Ok {
            txnMap := txnMap[t.tx := Entry(Tag.Withdrawal, t.amount.value)];
          }
          r := Ok;
        case Dispute =>
          var _ := Dispute(t);
          r := Ok;
        case Resolve =>
          r := Resolve(t);
        case Chargeback =>
          r := Chargeback(t);
        case Other =>
          r := Err;
      }
    }

    /** The driver loop: processes the records in order and stops at the first failure. */
    method ProcessAll(ts: seq<Transaction>) returns (r: Outcome)
      requires Valid() && AllHaveAmounts(ts)
      modifies this, clientMap.Values
      ensures Valid() && OnlyNewClients()
      ensures Step(Model(), r) == Ledger.ProcessAll(old(Model()), ts)
    {
      var i := 0;
      while i < |ts|
        invariant 0 <= i <= |ts|
        invariant Valid() && OnlyNewClients()
        invariant Ledger.ProcessAll(Model(), ts[i..]) == Ledger.ProcessAll(old(Model()), ts)
      {
        assert ts[i] in ts;
        r := Process(ts[i]);
        if r == Err {
          return;
        }
        i := i + 1;
      }
      return Ok;
    }
  }
}
