/**
 * Value model of the payment engine's transaction state machine: the account
 * ledger (one `Account` per client id), the history of referenceable
 * transactions, and one specification function per processing rule.
 *
 * Every function here mirrors one routine of src/payments.rs step by step,
 * including the order in which fields are changed before a check can fail.
 * The imperative engine in module Payments is proved to agree with these
 * functions; the lemmas in module LedgerProperties are stated over them.
 */
module Ledger {

  /** Client identifier: an unsigned 16-bit integer. */
  type ClientId = x: int | 0 <= x < 0x1_0000

  /** Transaction identifier: an unsigned 32-bit integer. */
  type TxId = x: int | 0 <= x < 0x1_0000_0000

  /** Amounts are whole numbers of minor currency units. */
  type Amount = int

  datatype Option<T> = None | Some(value: T)

  /** The type of an input record; `Other` stands for every type name other than the five known ones. */
  datatype Kind = Deposit | Withdrawal | Dispute | Resolve | Chargeback | Other

  /** An input record. Only deposits and withdrawals are expected to carry an amount. */
  datatype Transaction = Transaction(kind: Kind, client: ClientId, tx: TxId, amount: Option<Amount>)

  /** Deposits and withdrawals must carry an amount (the source unwraps it). */
  predicate HasRequiredAmount(t: Transaction) {
    (t.kind.Deposit? || t.kind.Withdrawal?) ==> t.amount.Some?
  }

  /** Tag of a history entry. */
  datatype Tag = Deposit | Withdrawal | Dispute

  /** A history entry: the tag of the referenced transaction and its amount. */
  datatype Entry = Entry(tag: Tag, amount: Amount)

  /** Success or failure of a rule; the source's error messages are not modelled. */
  datatype Outcome = Ok | Err

  /** The three balance fields of an account. */
  datatype Field = Available | Held | Total

  datatype Account = Account(id: ClientId, available: Amount, held: Amount, total: Amount, locked: bool)

  /** The value of one balance field. */
  function Get(a: Account, f: Field): Amount {
    match f
    case Available => a.available
    case Held => a.held
    case Total => a.total
  }

  /** The account created on first reference to a client id. */
  function NewAccount(id: ClientId): (r: Account)
    ensures r.id == id && !r.locked
    ensures forall f :: Get(r, f) == 0
  {
    Account(id, 0, 0, 0, false)
  }

  /** Adds `amount` to field `f`; never fails. */
  function Increase(a: Account, f: Field, amount: Amount): (r: Account)
    ensures Get(r, f) == Get(a, f) + amount
    ensures forall g :: g != f ==> Get(r, g) == Get(a, g)
    ensures r.id == a.id && r.locked == a.locked
  {
    match f
    case Available => a.(available := a.available + amount)
    case Held => a.(held := a.held + amount)
    case Total => a.(total := a.total + amount)
  }

  /**
   * Subtracts `amount` from field `f` only when the field covers it; otherwise
   * the account is returned unchanged together with `Err`.
   */
  function Decrease(a: Account, f: Field, amount: Amount): (r: (Account, Outcome))
    ensures r.1 == Ok <==> Get(a, f) >= amount
    ensures r.1 == Ok ==> Get(r.0, f) == Get(a, f) - amount
    ensures r.1 == Ok ==> forall g :: g != f ==> Get(r.0, g) == Get(a, g)
    ensures r.0.id == a.id && r.0.locked == a.locked
    ensures r.1 == Err ==> r.0 == a
  {
    match f
    case Available =>
      if a.available >= amount then (a.(available := a.available - amount), Ok) else (a, Err)
    case Held =>
      if a.held >= amount then (a.(held := a.held - amount), Ok) else (a, Err)
    case Total =>
      if a.total >= amount then (a.(total := a.total - amount), Ok) else (a, Err)
  }

  /**
   * The client map after looking up `id`: an existing account is left as it
   * is, an absent one is created with zero balances and unlocked.
   */
  function GetClient(clients: map<ClientId, Account>, id: ClientId): (r: map<ClientId, Account>)
    ensures id in r
    ensures id in clients ==> r == clients
    ensures id !in clients ==> r[id] == NewAccount(id)
    ensures r.Keys == clients.Keys + {id}
    ensures forall k :: k in clients ==> r[k] == clients[k]
  {
    if id in clients then clients else clients[id := NewAccount(id)]
  }

  /** The account a record naming `id` acts on: the existing one, or the one `GetClient` would create. */
  function Prior(s: State, id: ClientId): Account {
    GetClient(s.clients, id)[id]
  }

  /**
   * The client map `after` holds the account `id`, keeps every account of
   * `before` and leaves every account other than `id` as it was.
   */
  predicate OnlyClientChanged(before: map<ClientId, Account>, after: map<ClientId, Account>, id: ClientId) {
    after.Keys == before.Keys + {id} &&
    forall k | k in before && k != id :: after[k] == before[k]
  }

  /** History lookup: the entry recorded for `tx`, if any. */
  function GetTxnInfo(history: map<TxId, Entry>, tx: TxId): (r: Option<Entry>)
    ensures r.Some? <==> tx in history
    ensures r.Some? ==> r.value == history[tx]
  {
    if tx in history then Some(history[tx]) else None
  }

  /** The engine's whole state: the client map and the transaction history. */
  datatype State = State(clients: map<ClientId, Account>, history: map<TxId, Entry>)

  /** The state at the start of a run. */
  const Empty := State(map[], map[])

  /** The state after a rule together with the rule's outcome. */
  datatype Step = Step(state: State, result: Outcome)

  /** Deposit rule: credit `total` then `available` unless the account is locked. */
  function DepositRule(s: State, t: Transaction): Step
    requires t.amount.Some?
  {
    var amount := t.amount.value;
    var clients := GetClient(s.clients, t.client);
    var c := clients[t.client];
    if c.locked then Step(s.(clients := clients), Ok)
    else
      var c' := Increase(Increase(c, Total, amount), Available, amount);
      Step(s.(clients := clients[t.client := c']), Ok)
  }

  /**
   * Withdrawal rule: unless the account is locked, debit `total` and then
   * `available`, stopping at the first debit that is not covered.
   */
  function WithdrawalRule(s: State, t: Transaction): Step
    requires t.amount.Some?
  {
    var amount := t.amount.value;
    var clients := GetClient(s.clients, t.client);
    var c := clients[t.client];
    if c.locked then Step(s.(clients := clients), Ok)
    else
      var (c1, r1) := Decrease(c, Total, amount);
      if r1 == Err then Step(s.(clients := clients[t.client := c1]), Err)
      else
        var (c2, r2) := Decrease(c1, Available, amount);
        Step(s.(clients := clients[t.client := c2]), r2)
  }

  /**
   * Dispute rule: for a transaction in the history and an unlocked account,
   * credit `held`, then debit `available`; only when that debit succeeds is
   * the entry re-tagged as disputed.
   */
  function DisputeRule(s: State, t: Transaction): Step
  {
    match GetTxnInfo(s.history, t.tx)
    case None => Step(s, Ok)
    case Some(e) =>
      var clients := GetClient(s.clients, t.client);
      var c := clients[t.client];
      if c.locked then Step(s.(clients := clients), Ok)
      else
        var c1 := Increase(c, Held, e.amount);
        var (c2, r2) := Decrease(c1, Available, e.amount);
        if r2 == Err then Step(s.(clients := clients[t.client := c2]), Err)
        else Step(State(clients[t.client := c2], s.history[t.tx := Entry(Tag.Dispute, e.amount)]), Ok)
  }

  /** True when the history holds an entry for `tx` tagged as disputed. */
  predicate UnderDispute(history: map<TxId, Entry>, tx: TxId) {
    var info := GetTxnInfo(history, tx);
    info.Some? && info.value.tag == Tag.Dispute
  }

  /**
   * Resolve rule: for a disputed entry and an unlocked account, debit `held`;
   * when that succeeds, credit `available` and remove the entry.
   */
  function ResolveRule(s: State, t: Transaction): Step
  {
    if !UnderDispute(s.history, t.tx) then Step(s, Ok)
    else
      var amount := s.history[t.tx].amount;
      var clients := GetClient(s.clients, t.client);
      var c := clients[t.client];
      if c.locked then Step(s.(clients := clients), Ok)
      else
        var (c1, r1) := Decrease(c, Held, amount);
        if r1 == Err then Step(s.(clients := clients[t.client := c1]), Err)
        else
          var c2 := Increase(c1, Available, amount);
          Step(State(clients[t.client := c2], s.history - {t.tx}), Ok)
  }

  /**
   * Chargeback rule: for a disputed entry, lock the account and then debit
   * `held`; the entry stays in the history and `total` is not touched.
   */
  function ChargebackRule(s: State, t: Transaction): Step
  {
    if !UnderDispute(s.history, t.tx) then Step(s, Ok)
    else
      var amount := s.history[t.tx].amount;
      var clients := GetClient(s.clients, t.client);
      var c := clients[t.client].(locked := true);
      var (c1, r1) := Decrease(c, Held, amount);
      Step(s.(clients := clients[t.client := c1]), r1)
  }

  /**
   * Processing of one record: dispatch on its kind. A deposit is recorded in
   * the history before its rule runs; a withdrawal is recorded only when its
   * rule succeeds, and its failure is not reported; a dispute's failure is
   * not reported; resolve and chargeback report theirs; an unknown kind fails.
   */
  function Process(s: State, t: Transaction): (r: Step)
    requires HasRequiredAmount(t)
    ensures r.result == Err ==> Reported(t.kind)
  {
    match t.kind
    case Deposit =>
      DepositRule(s.(history := s.history[t.tx := Entry(Tag.Deposit, t.amount.value)]), t)
    case Withdrawal =>
      var w := WithdrawalRule(s, t);
      if w.result == Ok then
        Step(w.state.(history := w.state.history[t.tx := Entry(Tag.Withdrawal, t.amount.value)]), Ok)
      else Step(w.state, Ok)
    case Dispute => Step(DisputeRule(s, t).state, Ok)
    case Resolve => ResolveRule(s, t)
    case Chargeback => ChargebackRule(s, t)
    case Other => Step(s, Err)
  }

  /**
   * The kinds whose failure reaches the caller: resolve, chargeback and
   * unknown kinds. A failed deposit, withdrawal or dispute is reported as `Ok`.
   */
  predicate Reported(k: Kind) {
    k.Resolve? || k.Chargeback? || k.Other?
  }

  /** Every record of a run carries the amounts its kind requires. */
  predicate AllHaveAmounts(ts: seq<Transaction>) {
    forall t | t in ts :: HasRequiredAmount(t)
  }

  /** A run: the records in order, stopping at the first one that fails. */
  function ProcessAll(s: State, ts: seq<Transaction>): (r: Step)
    requires AllHaveAmounts(ts)
    ensures (forall t | t in ts :: !Reported(t.kind)) ==> r.result == Ok
    decreases |ts|
  {
    if ts == [] then Step(s, Ok)
    else
      var r := Process(s, ts[0]);
      if r.result == Err then r else ProcessAll(r.state, ts[1..])
  }
}
