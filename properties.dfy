/**
 * Properties of the payment engine's transaction rules, stated over the value
 * model in module Ledger: what each kind of record does to the account it
 * names and to the history, which quantities can never become negative, what
 * a locked account still accepts, where `total == available + held` holds and
 * where it is broken, and what a whole run of records does.
 */
module LedgerProperties {
  import opened Ledger

  /*********************************************************************
   * The rules on their own
   *********************************************************************/

  /**
   * A deposit rule always succeeds and leaves the history alone. It credits
   * `available` and `total` of an unlocked account and leaves a locked one
   * as it is.
   */
  lemma DepositRuleEffect(s: State, t: Transaction)
    requires t.amount.Some?
    ensures var r := DepositRule(s, t);
      r.result == Ok && r.state.history == s.history &&
      OnlyClientChanged(s.clients, r.state.clients, t.client) &&
      var a, b, amount := Prior(s, t.client), r.state.clients[t.client], t.amount.value;
      b.id == a.id && b.locked == a.locked && b.held == a.held &&
      b.available == (if a.locked then a.available else a.available + amount) &&
      b.total == (if a.locked then a.total else a.total + amount)
  {
  }

  /**
   * A withdrawal rule fails exactly when an unlocked account does not cover
   * the amount in `total` or in `available`. It debits `total` whenever that
   * covers the amount, and `available` only when both do.
   */
  lemma WithdrawalRuleEffect(s: State, t: Transaction)
    requires t.amount.Some?
    ensures var r := WithdrawalRule(s, t);
      r.state.history == s.history &&
      OnlyClientChanged(s.clients, r.state.clients, t.client) &&
      var a, b, amount := Prior(s, t.client), r.state.clients[t.client], t.amount.value;
      (r.result == Err <==> !a.locked && (a.total < amount || a.available < amount)) &&
      b.id == a.id && b.locked == a.locked && b.held == a.held &&
      b.total == (if a.locked || a.total < amount then a.total else a.total - amount) &&
      b.available ==
        (if a.locked || a.total < amount || a.available < amount then a.available else a.available - amount)
  {
  }

  /**
   * A dispute rule on an unknown transaction changes nothing. Otherwise an
   * unlocked account has the recorded amount added to `held` in any case;
   * only when `available` covers it is `available` debited and the entry
   * re-tagged as disputed, and otherwise the rule fails.
   */
  lemma DisputeRuleEffect(s: State, t: Transaction)
    ensures var r := DisputeRule(s, t);
      (t.tx !in s.history ==> r == Step(s, Ok)) &&
      (t.tx in s.history ==>
        OnlyClientChanged(s.clients, r.state.clients, t.client) &&
        var a, b, amount := Prior(s, t.client), r.state.clients[t.client], s.history[t.tx].amount;
        var covered := !a.locked && a.available >= amount;
        (r.result == Err <==> !a.locked && a.available < amount) &&
        b.id == a.id && b.locked == a.locked && b.total == a.total &&
        b.held == (if a.locked then a.held else a.held + amount) &&
        b.available == (if covered then a.available - amount else a.available) &&
        r.state.history == (if covered then s.history[t.tx := Entry(Tag.Dispute, amount)] else s.history))
  {
  }

  /**
   * A resolve rule changes nothing unless the entry is under dispute. Then,
   * on an unlocked account, it fails exactly when `held` does not cover the
   * amount, and otherwise moves the amount to `available` and removes the entry.
   */
  lemma ResolveRuleEffect(s: State, t: Transaction)
    ensures var r := ResolveRule(s, t);
      (!UnderDispute(s.history, t.tx) ==> r == Step(s, Ok)) &&
      (UnderDispute(s.history, t.tx) ==>
        OnlyClientChanged(s.clients, r.state.clients, t.client) &&
        var a, b, amount := Prior(s, t.client), r.state.clients[t.client], s.history[t.tx].amount;
        var covered := !a.locked && a.held >= amount;
        (r.result == Err <==> !a.locked && a.held < amount) &&
        b.id == a.id && b.locked == a.locked && b.total == a.total &&
        b.held == (if covered then a.held - amount else a.held) &&
        b.available == (if covered then a.available + amount else a.available) &&
        r.state.history == (if covered then s.history - {t.tx} else s.history))
  {
  }

  /**
   * A chargeback rule changes nothing unless the entry is under dispute. Then
   * it locks the account in any case and fails exactly when `held` does not
   * cover the amount. It debits `held` only when it does, and never changes
   * `available`, `total` or the history.
   */
  lemma ChargebackRuleEffect(s: State, t: Transaction)
    ensures var r := ChargebackRule(s, t);
      (!UnderDispute(s.history, t.tx) ==> r == Step(s, Ok)) &&
      (UnderDispute(s.history, t.tx) ==>
        OnlyClientChanged(s.clients, r.state.clients, t.client) &&
        r.state.history == s.history &&
        var a, b, amount := Prior(s, t.client), r.state.clients[t.client], s.history[t.tx].amount;
        (r.result == Err <==> a.held < amount) &&
        b.id == a.id && b.locked && b.total == a.total && b.available == a.available &&
        b.held == (if a.held >= amount then a.held - amount else a.held))
  {
  }

  /*********************************************************************
   * Processing of one record
   *********************************************************************/

  /** Every record creates at most the account it names; no other account changes. */
  lemma ProcessTouchesOnlyItsClient(s: State, t: Transaction)
    requires HasRequiredAmount(t)
    ensures var r := Process(s, t);
      s.clients.Keys <= r.state.clients.Keys <= s.clients.Keys + {t.client} &&
      forall k | k in s.clients && k != t.client :: r.state.clients[k] == s.clients[k]
  {
  }

  /** A record of an unrecognised kind fails and changes nothing. */
  lemma OtherKindRejected(s: State, t: Transaction)
    requires t.kind.Other?
    ensures Process(s, t) == Step(s, Err)
  {
  }

  /**
   * A deposit always records ("deposit", amount) under its transaction id and
   * succeeds; it credits `available` and `total` unless the account is locked.
   */
  lemma DepositEffect(s: State, t: Transaction)
    requires t.kind.Deposit? && t.amount.Some?
    ensures var r := Process(s, t); var a := Prior(s, t.client); var amount := t.amount.value;
      r.result == Ok &&
      t.client in r.state.clients &&
      r.state.history == s.history[t.tx := Entry(Tag.Deposit, amount)] &&
      r.state.clients[t.client] ==
        (if a.locked then a else a.(available := a.available + amount, total := a.total + amount))
  {
  }

  /**
   * A withdrawal always succeeds as far as the caller can see. On an unlocked
   * account it debits `total` when `total` covers the amount, then `available`
   * when that covers it too; the withdrawal is recorded when both debits were
   * made, and also when the account is locked.
   */
  lemma WithdrawalEffect(s: State, t: Transaction)
    requires t.kind.Withdrawal? && t.amount.Some?
    ensures var r := Process(s, t); var a := Prior(s, t.client); var amount := t.amount.value;
      var recorded := s.history[t.tx := Entry(Tag.Withdrawal, amount)];
      r.result == Ok &&
      t.client in r.state.clients &&
      (a.locked ==>
        r.state.clients[t.client] == a && r.state.history == recorded) &&
      (!a.locked && a.total < amount ==>
        r.state.clients[t.client] == a && r.state.history == s.history) &&
      (!a.locked && a.total >= amount && a.available < amount ==>
        r.state.clients[t.client] == a.(total := a.total - amount) && r.state.history == s.history) &&
      (!a.locked && a.total >= amount && a.available >= amount ==>
        r.state.clients[t.client] == a.(available := a.available - amount, total := a.total - amount) &&
        r.state.history == recorded)
  {
  }

  /**
   * A dispute always succeeds as far as the caller can see. For a transaction
   * absent from the history nothing changes, not even the client map. For a
   * recorded one on an unlocked account, `held` rises by the recorded amount;
   * only when `available` covers that amount is `available` debited and the
   * entry re-tagged as disputed. The entry's tag is not consulted.
   */
  lemma DisputeEffect(s: State, t: Transaction)
    requires t.kind.Dispute?
    ensures var r := Process(s, t);
      r.result == Ok &&
      (t.tx !in s.history ==> r.state == s) &&
      (t.tx in s.history ==>
        var a := Prior(s, t.client); var amount := s.history[t.tx].amount;
        t.client in r.state.clients &&
        (a.locked ==>
          r.state.clients[t.client] == a && r.state.history == s.history) &&
        (!a.locked && a.available >= amount ==>
          r.state.clients[t.client] == a.(available := a.available - amount, held := a.held + amount) &&
          r.state.history == s.history[t.tx := Entry(Tag.Dispute, amount)]) &&
        (!a.locked && a.available < amount ==>
          r.state.clients[t.client] == a.(held := a.held + amount) && r.state.history == s.history))
  {
  }

  /**
   * A resolve acts only on an entry tagged as disputed and an unlocked account:
   * when `held` covers the amount it moves the amount from `held` to
   * `available` and removes the entry; otherwise it fails and changes neither
   * balances nor history. An absent or undisputed entry is accepted with no change.
   */
  lemma ResolveEffect(s: State, t: Transaction)
    requires t.kind.Resolve?
    ensures var r := Process(s, t);
      (!UnderDispute(s.history, t.tx) ==> r == Step(s, Ok)) &&
      (UnderDispute(s.history, t.tx) ==>
        var a := Prior(s, t.client); var amount := s.history[t.tx].amount;
        t.client in r.state.clients &&
        (a.locked ==>
          r.result == Ok && r.state.clients[t.client] == a && r.state.history == s.history) &&
        (!a.locked && a.held >= amount ==>
          r.result == Ok &&
          r.state.clients[t.client] == a.(available := a.available + amount, held := a.held - amount) &&
          r.state.history == s.history - {t.tx}) &&
        (!a.locked && a.held < amount ==>
          r.result == Err && r.state.clients[t.client] == a && r.state.history == s.history))
  {
  }

  /**
   * A chargeback on an entry tagged as disputed locks the account whatever
   * follows, then debits `held` if it covers the amount and fails otherwise.
   * It never changes `available`, `total` or the history. An absent or
   * undisputed entry is accepted with no change.
   */
  lemma ChargebackEffect(s: State, t: Transaction)
    requires t.kind.Chargeback?
    ensures var r := Process(s, t);
      (!UnderDispute(s.history, t.tx) ==> r == Step(s, Ok)) &&
      (UnderDispute(s.history, t.tx) ==>
        var a := Prior(s, t.client); var amount := s.history[t.tx].amount;
        t.client in r.state.clients &&
        r.state.history == s.history &&
        (a.held >= amount ==>
          r.result == Ok && r.state.clients[t.client] == a.(held := a.held - amount, locked := true)) &&
        (a.held < amount ==>
          r.result == Err && r.state.clients[t.client] == a.(locked := true)))
  {
  }

  /*********************************************************************
   * Balances never become negative
   *********************************************************************/

  predicate NonNegative(a: Account) {
    a.available >= 0 && a.held >= 0 && a.total >= 0
  }

  /** All balances and all recorded amounts are non-negative. */
  predicate NonNegativeState(s: State) {
    (forall k | k in s.clients :: NonNegative(s.clients[k])) &&
    (forall tx | tx in s.history :: s.history[tx].amount >= 0)
  }

  predicate NonNegativeAmount(t: Transaction) {
    t.amount.Some? ==> t.amount.value >= 0
  }

  /** With non-negative amounts, no record can drive a balance below zero. */
  lemma ProcessKeepsNonNegative(s: State, t: Transaction)
    requires HasRequiredAmount(t) && NonNegativeAmount(t) && NonNegativeState(s)
    ensures NonNegativeState(Process(s, t).state)
  {
  }

  /** With non-negative amounts, no run can drive a balance below zero. */
  lemma {:induction false} ProcessAllKeepsNonNegative(s: State, ts: seq<Transaction>)
    requires AllHaveAmounts(ts) && NonNegativeState(s)
    requires forall t | t in ts :: NonNegativeAmount(t)
    ensures NonNegativeState(ProcessAll(s, ts).state)
    decreases |ts|
  {
    if ts != [] {
      ProcessKeepsNonNegative(s, ts[0]);
      var r := Process(s, ts[0]);
      if r.result == Ok {
        ProcessAllKeepsNonNegative(r.state, ts[1..]);
      }
    }
  }

  /** Starting from no accounts, every account stays non-negative. */
  lemma RunFromEmptyIsNonNegative(ts: seq<Transaction>)
    requires AllHaveAmounts(ts)
    requires forall t | t in ts :: NonNegativeAmount(t)
    ensures forall k | k in ProcessAll(Empty, ts).state.clients ::
      NonNegative(ProcessAll(Empty, ts).state.clients[k])
  {
    ProcessAllKeepsNonNegative(Empty, ts);
  }

  /*********************************************************************
   * Locked accounts
   *********************************************************************/

  /** No record unlocks an account, and none removes one. */
  lemma ProcessNeverUnlocks(s: State, t: Transaction)
    requires HasRequiredAmount(t)
    ensures forall k | k in s.clients :: k in Process(s, t).state.clients
    ensures forall k | k in s.clients && s.clients[k].locked :: Process(s, t).state.clients[k].locked
  {
  }

  /** Only a chargeback locks an account. */
  lemma OnlyChargebackLocks(s: State, t: Transaction)
    requires HasRequiredAmount(t) && !t.kind.Chargeback?
    ensures forall k | k in Process(s, t).state.clients && Process(s, t).state.clients[k].locked ::
      k in s.clients && s.clients[k].locked
  {
  }

  /**
   * On a locked account deposit, withdrawal, dispute and resolve succeed and
   * leave every balance as it was; deposit and withdrawal are still recorded.
   */
  lemma LockedAccountIgnoresRecords(s: State, t: Transaction)
    requires HasRequiredAmount(t)
    requires t.kind.Deposit? || t.kind.Withdrawal? || t.kind.Dispute? || t.kind.Resolve?
    requires t.client in s.clients && s.clients[t.client].locked
    ensures var r := Process(s, t);
      r.result == Ok && r.state.clients == s.clients &&
      r.state.history ==
        (match t.kind
         case Deposit => s.history[t.tx := Entry(Tag.Deposit, t.amount.value)]
         case Withdrawal => s.history[t.tx := Entry(Tag.Withdrawal, t.amount.value)]
         case _ => s.history)
  {
  }

  /** Once locked, an account stays locked for the rest of any run. */
  lemma {:induction false} LockedStaysLocked(s: State, ts: seq<Transaction>, k: ClientId)
    requires AllHaveAmounts(ts)
    requires k in s.clients && s.clients[k].locked
    ensures var r := ProcessAll(s, ts); k in r.state.clients && r.state.clients[k].locked
    decreases |ts|
  {
    if ts != [] {
      ProcessNeverUnlocks(s, ts[0]);
      var r := Process(s, ts[0]);
      if r.result == Ok {
        LockedStaysLocked(r.state, ts[1..], k);
      }
    }
  }

  /** One record that is not a chargeback for `k` leaves a locked account `k` as it is. */
  lemma LockedAccountUnchanged(s: State, t: Transaction, k: ClientId)
    requires HasRequiredAmount(t)
    requires k in s.clients && s.clients[k].locked
    requires t.kind.Chargeback? ==> t.client != k
    ensures k in Process(s, t).state.clients && Process(s, t).state.clients[k] == s.clients[k]
  {
    if t.kind.Other? {
      OtherKindRejected(s, t);
    } else if t.client == k {
      LockedAccountIgnoresRecords(s, t);
    } else {
      ProcessTouchesOnlyItsClient(s, t);
    }
  }

  /**
   * A locked account keeps all its balances for the rest of a run in which no
   * chargeback names it.
   */
  lemma {:induction false} FrozenAccountStaysFrozen(s: State, ts: seq<Transaction>, k: ClientId)
    requires AllHaveAmounts(ts)
    requires k in s.clients && s.clients[k].locked
    requires forall t | t in ts :: t.kind.Chargeback? ==> t.client != k
    ensures var r := ProcessAll(s, ts); k in r.state.clients && r.state.clients[k] == s.clients[k]
    decreases |ts|
  {
    if ts != [] {
      LockedAccountUnchanged(s, ts[0], k);
      var r := Process(s, ts[0]);
      if r.result == Ok {
        FrozenAccountStaysFrozen(r.state, ts[1..], k);
      }
    }
  }

  /*********************************************************************
   * total == available + held
   *********************************************************************/

  predicate Balanced(a: Account) {
    a.total == a.available + a.held
  }

  /** A deposit keeps the account balanced. */
  lemma DepositKeepsBalance(s: State, t: Transaction)
    requires t.amount.Some? && Balanced(Prior(s, t.client))
    ensures Balanced(Prior(DepositRule(s, t).state, t.client))
  {
  }

  /** A withdrawal whose rule succeeds keeps the account balanced. */
  lemma SuccessfulWithdrawalKeepsBalance(s: State, t: Transaction)
    requires t.amount.Some? && Balanced(Prior(s, t.client))
    requires WithdrawalRule(s, t).result == Ok
    ensures Balanced(Prior(WithdrawalRule(s, t).state, t.client))
  {
  }

  /** A dispute whose rule succeeds keeps the account balanced. */
  lemma SuccessfulDisputeKeepsBalance(s: State, t: Transaction)
    requires Balanced(Prior(s, t.client))
    requires DisputeRule(s, t).result == Ok
    ensures Balanced(Prior(DisputeRule(s, t).state, t.client))
  {
  }

  /** A resolve whose rule succeeds keeps the account balanced. */
  lemma SuccessfulResolveKeepsBalance(s: State, t: Transaction)
    requires Balanced(Prior(s, t.client))
    requires ResolveRule(s, t).result == Ok
    ensures Balanced(Prior(ResolveRule(s, t).state, t.client))
  {
  }

  /** A successful chargeback of a non-zero amount leaves a balanced account unbalanced. */
  lemma ChargebackBreaksBalance(s: State, t: Transaction)
    requires UnderDispute(s.history, t.tx) && s.history[t.tx].amount != 0
    requires Balanced(Prior(s, t.client))
    requires Prior(s, t.client).held >= s.history[t.tx].amount
    ensures ChargebackRule(s, t).result == Ok
    ensures !Balanced(Prior(ChargebackRule(s, t).state, t.client))
  {
  }

  /**
   * A withdrawal that `total` covers but `available` does not is reported as
   * accepted, yet it debits `total` alone and leaves the account unbalanced.
   */
  lemma UncoveredWithdrawalBreaksBalance(s: State, t: Transaction)
    requires t.kind.Withdrawal? && t.amount.Some?
    requires !Prior(s, t.client).locked && Balanced(Prior(s, t.client))
    requires Prior(s, t.client).available < t.amount.value <= Prior(s, t.client).total
    requires t.amount.value != 0
    ensures Process(s, t).result == Ok
    ensures !Balanced(Prior(Process(s, t).state, t.client))
    ensures Process(s, t).state.history == s.history
  {
    WithdrawalEffect(s, t);
  }

  /**
   * A dispute of a non-zero amount that `available` does not cover is
   * accepted, yet it credits `held` alone and leaves the account unbalanced.
   */
  lemma UncoveredDisputeBreaksBalance(s: State, t: Transaction)
    requires t.kind.Dispute? && t.tx in s.history && s.history[t.tx].amount != 0
    requires !Prior(s, t.client).locked && Balanced(Prior(s, t.client))
    requires Prior(s, t.client).available < s.history[t.tx].amount
    ensures Process(s, t).result == Ok
    ensures !Balanced(Prior(Process(s, t).state, t.client))
    ensures Process(s, t).state.history == s.history
  {
    DisputeEffect(s, t);
  }

  /*********************************************************************
   * Repeated records
   *********************************************************************/

  /** Processing the same resolve twice has the effect of processing it once. */
  lemma ResolveIsIdempotent(s: State, t: Transaction)
    requires t.kind.Resolve?
    ensures var r := Process(s, t); Process(r.state, t) == r
  {
  }

  /**
   * A chargeback leaves its entry tagged as disputed, so the same chargeback
   * succeeds again and debits `held` a second time.
   */
  lemma RepeatedChargebackDebitsAgain(s: State, t: Transaction)
    requires t.kind.Chargeback? && UnderDispute(s.history, t.tx)
    requires Prior(s, t.client).held >= 2 * s.history[t.tx].amount >= 0
    ensures var r1 := Process(s, t); var r2 := Process(r1.state, t);
      r1.result == Ok && r2.result == Ok &&
      Prior(r2.state, t.client).held == Prior(s, t.client).held - 2 * s.history[t.tx].amount &&
      Prior(r2.state, t.client).total == Prior(s, t.client).total
  {
    ChargebackEffect(s, t);
    var r1 := Process(s, t);
    ChargebackEffect(r1.state, t);
  }

  /**
   * A dispute does not look at the entry's tag, so disputing the same
   * transaction twice on an unlocked account holds its amount twice.
   */
  lemma RepeatedDisputeHoldsAgain(s: State, t: Transaction)
    requires t.kind.Dispute? && t.tx in s.history && !Prior(s, t.client).locked
    requires Prior(s, t.client).available >= 2 * s.history[t.tx].amount >= 0
    ensures var r2 := Process(Process(s, t).state, t);
      Prior(r2.state, t.client).held == Prior(s, t.client).held + 2 * s.history[t.tx].amount &&
      Prior(r2.state, t.client).available == Prior(s, t.client).available - 2 * s.history[t.tx].amount &&
      r2.state.history[t.tx] == Entry(Tag.Dispute, s.history[t.tx].amount)
  {
    DisputeEffect(s, t);
    var r1 := Process(s, t);
    DisputeEffect(r1.state, t);
  }

  /**
   * Resolve undoes a dispute that went through: on an unlocked account whose
   * `available` covers the recorded amount, disputing and then resolving a
   * transaction returns the account to where it was and closes the entry.
   */
  lemma DisputeThenResolve(s: State, c: ClientId, tx: TxId)
    requires tx in s.history && !Prior(s, c).locked
    requires Prior(s, c).held >= 0 && Prior(s, c).available >= s.history[tx].amount
    ensures var r1 := Process(s, Transaction(Kind.Dispute, c, tx, None));
      var r2 := Process(r1.state, Transaction(Kind.Resolve, c, tx, None));
      r1.result == Ok && r2.result == Ok &&
      r2.state.clients == GetClient(s.clients, c) &&
      r2.state.history == s.history - {tx}
  {
  }

  /*********************************************************************
   * Runs
   *********************************************************************/

  /**
   * Records are processed in order: a run of `ts` followed by `t` is the run
   * of `ts` and then, unless that run failed, the processing of `t`.
   */
  lemma {:induction false} ProcessAllAppend(s: State, ts: seq<Transaction>, t: Transaction)
    requires AllHaveAmounts(ts) && HasRequiredAmount(t)
    ensures AllHaveAmounts(ts + [t])
    ensures var r := ProcessAll(s, ts);
      ProcessAll(s, ts + [t]) == if r.result == Err then r else Process(r.state, t)
    decreases |ts|
  {
    if ts == [] {
      assert [t][1..] == [];
    } else {
      assert (ts + [t])[0] == ts[0] && (ts + [t])[1..] == ts[1..] + [t];
      var r := Process(s, ts[0]);
      if r.result == Ok {
        ProcessAllAppend(r.state, ts[1..], t);
      }
    }
  }

  /** A run never deletes an account. */
  lemma {:induction false} ProcessAllKeepsAccounts(s: State, ts: seq<Transaction>)
    requires AllHaveAmounts(ts)
    ensures s.clients.Keys <= ProcessAll(s, ts).state.clients.Keys
    decreases |ts|
  {
    if ts != [] {
      ProcessNeverUnlocks(s, ts[0]);
      var r := Process(s, ts[0]);
      if r.result == Ok {
        ProcessAllKeepsAccounts(r.state, ts[1..]);
      }
    }
  }

  /** A run that contains a record of an unrecognised kind fails. */
  lemma {:induction false} RunWithUnknownKindFails(s: State, ts: seq<Transaction>, i: nat)
    requires AllHaveAmounts(ts) && i < |ts| && ts[i].kind.Other?
    ensures ProcessAll(s, ts).result == Err
    decreases i
  {
    var r := Process(s, ts[0]);
    if i > 0 && r.result == Ok {
      RunWithUnknownKindFails(r.state, ts[1..], i - 1);
    }
  }
}
