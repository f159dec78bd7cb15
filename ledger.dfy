/**
 * The database tables the handlers change, and one method per handler action that
 * changes them. Each method follows its handler's reads and writes in order and is
 * proved against the pure effect in `Accounting` or against the new table contents,
 * together with what it does to the `calc.py` rollups. A record the handler looks up and
 * does not find (`Model.get` returning `None`) makes the handler fail before its first
 * write, which the methods model as "nothing changes".
 */
module Ledgers {
  import opened Wrappers
  import opened Settings
  import opened Models
  import opened Queries
  import opened Calc
  import opened Accounting
  import opened Validate
  import opened Drafts

  /** The buttons of the report confirmation form. */
  datatype Confirmation = Accept | Reject

  /** The buttons of the deletion confirmation form. */
  datatype Answer = Yes | No

  /** The buttons of a membership request. */
  datatype Admission = Admit | Decline

  /** The balance type of an administrator's operation that also moves the misha balance. */
  predicate ToMisha(balanceType: string) {
    balanceType == "misha"
  }

  /** What collecting one user's salary did. */
  datatype Collection = Collected(amount: real) | NothingToCollect | NoSuchAccount

  /** Every user is stored under its own id and uses a known currency. */
  predicate Registered(users: map<UserId, User>, currencies: map<CurrencyId, Currency>) {
    && DefaultCurrency in currencies
    && forall u | u in users :: users[u].id == u && users[u].currency in currencies
  }

  /** Every user has exactly one record of the table, stored under its id. */
  predicate Owned(users: map<UserId, User>, accounts: map<UserId, Account>) {
    accounts.Keys == users.Keys && forall u | u in accounts :: accounts[u].user == u
  }

  /**
   * The ledger's invariant: every user has exactly one row in `order` and one Salary,
   * Bet20Salary and Charity record keyed by its id; currencies and report owners exist.
   */
  predicate Consistent(order: seq<UserId>, users: map<UserId, User>, salaries: map<UserId, Account>,
                       bet20Salaries: map<UserId, Account>, charities: map<UserId, Account>,
                       currencies: map<CurrencyId, Currency>, reports: seq<Report>) {
    && NoDuplicates(order)
    && Tabled(order, users, salaries, bet20Salaries, charities)
    && (forall u | u in users :: u in order)
    && Registered(users, currencies)
    && Owned(users, salaries) && Owned(users, bet20Salaries) && Owned(users, charities)
    && (forall i | 0 <= i < |reports| :: reports[i].user in users)
  }

  /** Editing a user's record, keeping its id and currency, keeps the invariant. */
  lemma UserEdit(order: seq<UserId>, users: map<UserId, User>, salaries: map<UserId, Account>,
                 bet20Salaries: map<UserId, Account>, charities: map<UserId, Account>,
                 currencies: map<CurrencyId, Currency>, reports: seq<Report>, uid: UserId, v: User)
    requires Consistent(order, users, salaries, bet20Salaries, charities, currencies, reports)
    requires uid in users && v.id == uid && v.currency == users[uid].currency
    ensures Consistent(order, users[uid := v], salaries, bet20Salaries, charities, currencies, reports)
  {
    assert users[uid := v].Keys == users.Keys;
  }

  /** Editing a Salary record, keeping its owner, keeps the invariant. */
  lemma SalaryEdit(order: seq<UserId>, users: map<UserId, User>, salaries: map<UserId, Account>,
                   bet20Salaries: map<UserId, Account>, charities: map<UserId, Account>,
                   currencies: map<CurrencyId, Currency>, reports: seq<Report>, uid: UserId, a: Account)
    requires Consistent(order, users, salaries, bet20Salaries, charities, currencies, reports)
    requires uid in users && a.user == uid
    ensures Consistent(order, users, salaries[uid := a], bet20Salaries, charities, currencies, reports)
  {
    assert salaries[uid := a].Keys == salaries.Keys;
  }

  /** Editing a Bet20Salary record, keeping its owner, keeps the invariant. */
  lemma Bet20Edit(order: seq<UserId>, users: map<UserId, User>, salaries: map<UserId, Account>,
                  bet20Salaries: map<UserId, Account>, charities: map<UserId, Account>,
                  currencies: map<CurrencyId, Currency>, reports: seq<Report>, uid: UserId, a: Account)
    requires Consistent(order, users, salaries, bet20Salaries, charities, currencies, reports)
    requires uid in users && a.user == uid
    ensures Consistent(order, users, salaries, bet20Salaries[uid := a], charities, currencies, reports)
  {
    assert bet20Salaries[uid := a].Keys == bet20Salaries.Keys;
  }

  /** Editing a Charity record, keeping its owner, keeps the invariant. */
  lemma CharityEdit(order: seq<UserId>, users: map<UserId, User>, salaries: map<UserId, Account>,
                    bet20Salaries: map<UserId, Account>, charities: map<UserId, Account>,
                    currencies: map<CurrencyId, Currency>, reports: seq<Report>, uid: UserId, a: Account)
    requires Consistent(order, users, salaries, bet20Salaries, charities, currencies, reports)
    requires uid in users && a.user == uid
    ensures Consistent(order, users, salaries, bet20Salaries, charities[uid := a], currencies, reports)
  {
    assert charities[uid := a].Keys == charities.Keys;
  }

  /** Editing all the books of one user, keeping ids, currency and owners, keeps the invariant. */
  lemma BooksEdit(order: seq<UserId>, users: map<UserId, User>, salaries: map<UserId, Account>,
                  bet20Salaries: map<UserId, Account>, charities: map<UserId, Account>,
                  currencies: map<CurrencyId, Currency>, reports: seq<Report>, uid: UserId, b: Books)
    requires Consistent(order, users, salaries, bet20Salaries, charities, currencies, reports)
    requires uid in users && b.user.id == uid && b.user.currency == users[uid].currency
    requires b.salary.user == uid && b.bet20Salary.user == uid && b.charity.user == uid
    ensures Consistent(order, users[uid := b.user], salaries[uid := b.salary], bet20Salaries[uid := b.bet20Salary],
                       charities[uid := b.charity], currencies, reports)
  {
    UserEdit(order, users, salaries, bet20Salaries, charities, currencies, reports, uid, b.user);
    var users' := users[uid := b.user];
    SalaryEdit(order, users', salaries, bet20Salaries, charities, currencies, reports, uid, b.salary);
    var salaries' := salaries[uid := b.salary];
    Bet20Edit(order, users', salaries', bet20Salaries, charities, currencies, reports, uid, b.bet20Salary);
    CharityEdit(order, users', salaries', bet20Salaries[uid := b.bet20Salary], charities, currencies, reports, uid, b.charity);
  }

  /** A new report of a known user keeps the invariant. */
  lemma ReportAdded(order: seq<UserId>, users: map<UserId, User>, salaries: map<UserId, Account>,
                    bet20Salaries: map<UserId, Account>, charities: map<UserId, Account>,
                    currencies: map<CurrencyId, Currency>, reports: seq<Report>, r: Report)
    requires Consistent(order, users, salaries, bet20Salaries, charities, currencies, reports)
    requires r.user in users
    ensures Consistent(order, users, salaries, bet20Salaries, charities, currencies, reports + [r])
  {
    var reports' := reports + [r];
    assert forall i | 0 <= i < |reports'| :: reports'[i] == if i < |reports| then reports[i] else r;
  }

  /** A new user with zeroed records, as the last row of every table, keeps the invariant. */
  lemma EnrolKeepsConsistent(order: seq<UserId>, users: map<UserId, User>, salaries: map<UserId, Account>,
                             bet20Salaries: map<UserId, Account>, charities: map<UserId, Account>,
                             currencies: map<CurrencyId, Currency>, reports: seq<Report>,
                             uid: UserId, username: string, now: Instant)
    requires Consistent(order, users, salaries, bet20Salaries, charities, currencies, reports)
    requires uid !in users
    ensures Consistent(order + [uid], users[uid := NewUser(uid, username, now)], salaries[uid := NewAccount(uid)],
                       bet20Salaries[uid := NewAccount(uid)], charities[uid := NewAccount(uid)], currencies, reports)
  {
    assert uid !in order;
    var order' := order + [uid];
    assert forall i | 0 <= i < |order'| :: order'[i] == if i < |order| then order[i] else uid;
  }

  /**
   * One row after a sweep of payouts: an active user's positive account had its amount
   * taken off the user's balance and was set to 0 at `now`; any other row is as it was.
   */
  predicate PaidOutRow(user0: User, account0: Account, user: User, account: Account, now: Instant) {
    if user0.active && account0.amount > 0.0 then
      && account == account0.(amount := 0.0, lastDebitingAt := Some(now))
      && user == user0.(balance := user0.balance - account0.amount)
    else
      account == account0 && user == user0
  }

  /** The same for the row of `u` in whole tables. */
  predicate CollectedRow(users0: map<UserId, User>, table0: map<UserId, Account>,
                         users: map<UserId, User>, table: map<UserId, Account>, u: UserId, now: Instant) {
    && u in users0 && u in table0 && u in users && u in table
    && PaidOutRow(users0[u], table0[u], users[u], table[u], now)
  }

  /** After a sweep over every row, no active user's account is positive, nor is their sum. */
  lemma CollectedTableNonPositive(order: seq<UserId>, users0: map<UserId, User>, table0: map<UserId, Account>,
                                  users: map<UserId, User>, table: map<UserId, Account>, now: Instant)
    requires Covers(order, users) && Covers(order, table)
    requires forall u | u in users0 :: CollectedRow(users0, table0, users, table, u, now)
    requires users.Keys == users0.Keys && table.Keys == users.Keys
    ensures forall u | u in users && users[u].active :: table[u].amount <= 0.0
    ensures CommonSalary(order, users, table) <= 0.0
  {
    forall u | u in users && users[u].active
      ensures table[u].amount <= 0.0
    {
      assert u in users0;
      assert CollectedRow(users0, table0, users, table, u, now);
    }
    var rows := ActiveAccountsOf(order, users, table);
    forall i | 0 <= i < |rows|
      ensures AmountOf(rows[i]) <= 0.0
    {
      ActiveAccountsAreRows(order, users, table, rows[i]);
      var k :| 0 <= k < |order| && users[order[k]].active && table[order[k]] == rows[i];
      assert order[k] in users;
    }
    SumOfNonPositive(rows, AmountOf);
  }

  /**
   * A sweep over `order` that has reached row `i`: the rows before it are paid out as
   * `PaidOutRow` says and the rows from it on are untouched.
   */
  predicate SweptUpTo(order: seq<UserId>, i: nat, users0: map<UserId, User>, table0: map<UserId, Account>,
                      users: map<UserId, User>, table: map<UserId, Account>, now: Instant) {
    && i <= |order|
    && Covers(order, users0) && Covers(order, table0) && Covers(order, users) && Covers(order, table)
    && (forall j | 0 <= j < i :: PaidOutRow(users0[order[j]], table0[order[j]], users[order[j]], table[order[j]], now))
    && (forall j | i <= j < |order| :: users[order[j]] == users0[order[j]] && table[order[j]] == table0[order[j]])
  }

  /** Paying out row `i`, and only it, takes the sweep one row further. */
  lemma SweptStep(order: seq<UserId>, i: nat, users0: map<UserId, User>, table0: map<UserId, Account>,
                  users: map<UserId, User>, table: map<UserId, Account>,
                  users': map<UserId, User>, table': map<UserId, Account>, now: Instant)
    requires NoDuplicates(order) && i < |order|
    requires SweptUpTo(order, i, users0, table0, users, table, now)
    requires order[i] in users' && order[i] in table'
    requires users' == users[order[i] := users'[order[i]]] && table' == table[order[i] := table'[order[i]]]
    requires PaidOutRow(users[order[i]], table[order[i]], users'[order[i]], table'[order[i]], now)
    ensures SweptUpTo(order, i + 1, users0, table0, users', table', now)
  {
    forall j | 0 <= j < |order| && j != i
      ensures users'[order[j]] == users[order[j]] && table'[order[j]] == table[order[j]]
    {
      assert order[j] != order[i];
    }
  }

  /** A sweep that went over every row of `order` has collected every row of the table. */
  lemma SweepComplete(order: seq<UserId>, users0: map<UserId, User>, table0: map<UserId, Account>,
                      users: map<UserId, User>, table: map<UserId, Account>, now: Instant)
    requires SweptUpTo(order, |order|, users0, table0, users, table, now)
    requires forall u | u in users0 :: u in order
    requires users.Keys == users0.Keys && table.Keys == users.Keys
    ensures forall u | u in users0 :: CollectedRow(users0, table0, users, table, u, now)
    ensures forall u | u in users && users[u].active :: table[u].amount <= 0.0
    ensures CommonSalary(order, users, table) <= 0.0
  {
    forall u | u in users0
      ensures CollectedRow(users0, table0, users, table, u, now)
    {
      var j :| 0 <= j < |order| && order[j] == u;
    }
    CollectedTableNonPositive(order, users0, table0, users, table, now);
  }

  /** A charity sweep that has reached row `i`: earlier records are cleared, later ones untouched. */
  predicate ClearedUpTo(order: seq<UserId>, i: nat, charities0: map<UserId, Account>,
                        charities: map<UserId, Account>, now: Instant) {
    && i <= |order| && Covers(order, charities0) && Covers(order, charities)
    && (forall j | 0 <= j < i :: charities[order[j]] == charities0[order[j]].(amount := 0.0, lastDebitingAt := Some(now)))
    && (forall j | i <= j < |order| :: charities[order[j]] == charities0[order[j]])
  }

  /** Clearing row `i`, and only it, takes the charity sweep one row further. */
  lemma ClearedStep(order: seq<UserId>, i: nat, charities0: map<UserId, Account>,
                    charities: map<UserId, Account>, charities': map<UserId, Account>, now: Instant)
    requires NoDuplicates(order) && i < |order|
    requires ClearedUpTo(order, i, charities0, charities, now)
    requires charities' == charities[order[i] := charities[order[i]].(amount := 0.0, lastDebitingAt := Some(now))]
    ensures ClearedUpTo(order, i + 1, charities0, charities', now)
  {
    forall j | 0 <= j < |order| && j != i
      ensures charities'[order[j]] == charities[order[j]]
    {
      assert order[j] != order[i];
    }
  }

  /**
   * A charity sweep over every row clears every record: the common charity is then 0
   * and the common total charity is what it was.
   */
  lemma ClearComplete(order: seq<UserId>, charities0: map<UserId, Account>, charities: map<UserId, Account>, now: Instant)
    requires ClearedUpTo(order, |order|, charities0, charities, now)
    requires forall u | u in charities0 :: u in order
    ensures forall u | u in charities0 ::
      u in charities && charities[u] == charities0[u].(amount := 0.0, lastDebitingAt := Some(now))
    ensures CommonCharity(order, charities) == 0.0
    ensures CommonTotalCharity(order, charities) == CommonTotalCharity(order, charities0)
  {
    forall u | u in charities0
      ensures u in charities && charities[u] == charities0[u].(amount := 0.0, lastDebitingAt := Some(now))
    {
      var j :| 0 <= j < |order| && order[j] == u;
    }
    SumAccountsZero(order, charities, AmountOf);
    SumAccountsSameTerms(order, charities0, charities, TotalAmountOf);
  }

  /**
   * A new member starts with every balance and account at 0, so adding their rows at the
   * end of the tables leaves all five rollups where they were.
   */
  lemma EnrolKeepsRollups(order: seq<UserId>, users: map<UserId, User>, salaries: map<UserId, Account>,
                          bet20Salaries: map<UserId, Account>, charities: map<UserId, Account>,
                          uid: UserId, username: string, now: Instant)
    requires Tabled(order, users, salaries, bet20Salaries, charities) && uid !in order
    ensures var v := NewUser(uid, username, now);
      && Tabled(order + [uid], users[uid := v], salaries[uid := NewAccount(uid)],
                bet20Salaries[uid := NewAccount(uid)], charities[uid := NewAccount(uid)])
      && CommonBalance(order + [uid], users[uid := v]) == CommonBalance(order, users)
      && CommonMishaBalance(order + [uid], users[uid := v]) == CommonMishaBalance(order, users)
      && CommonSalary(order + [uid], users[uid := v], salaries[uid := NewAccount(uid)])
         == CommonSalary(order, users, salaries)
      && CommonSalary(order + [uid], users[uid := v], bet20Salaries[uid := NewAccount(uid)])
         == CommonSalary(order, users, bet20Salaries)
      && CommonCharity(order + [uid], charities[uid := NewAccount(uid)]) == CommonCharity(order, charities)
      && CommonTotalCharity(order + [uid], charities[uid := NewAccount(uid)]) == CommonTotalCharity(order, charities)
  {
    var v := NewUser(uid, username, now);
    var a := NewAccount(uid);
    AppendUserRow(order, users, uid, v);
    SumOfSnoc(ActiveUsersOf(order, users), v, BalanceOf);
    SumOfSnoc(ActiveUsersOf(order, users), v, MishaBalanceOf);
    AppendActiveAccountRow(order, users, salaries, uid, v, a);
    SumOfSnoc(ActiveAccountsOf(order, users, salaries), a, AmountOf);
    AppendActiveAccountRow(order, users, bet20Salaries, uid, v, a);
    SumOfSnoc(ActiveAccountsOf(order, users, bet20Salaries), a, AmountOf);
    AppendAccountRow(order, charities, uid, a);
    SumOfSnoc(AccountsOf(order, charities), a, AmountOf);
    SumOfSnoc(AccountsOf(order, charities), a, TotalAmountOf);
  }

  class Ledger {
    const cfg: Config
    const currencies: map<CurrencyId, Currency>
    /**
     * `Operation.created_at` defaults to `datetime.datetime.now()` evaluated once, when
     * the models module is imported, so every operation carries that moment.
     */
    const startedAt: Instant

    var users: map<UserId, User>
    /** The order of the user rows, which is the order of every per-user listing. */
    var userOrder: seq<UserId>
    var salaries: map<UserId, Account>
    var bet20Salaries: map<UserId, Account>
    var charities: map<UserId, Account>
    /** Report `id` k is `reports[k - 1]`. */
    var reports: seq<Report>
    var operations: seq<Operation>

    /** The invariant `Consistent` on this ledger's tables. */
    ghost predicate Valid()
      reads this
    {
      Consistent(userOrder, users, salaries, bet20Salaries, charities, currencies, reports)
    }

    /** A fresh database holding only the currencies. */
    constructor(cfg: Config, currencies: map<CurrencyId, Currency>, startedAt: Instant)
      requires DefaultCurrency in currencies
      ensures Valid()
      ensures this.cfg == cfg && this.currencies == currencies && this.startedAt == startedAt
      ensures users == map[] && userOrder == [] && reports == [] && operations == []
      ensures salaries == map[] && bet20Salaries == map[] && charities == map[]
      ensures CommonBalance(userOrder, users) == 0.0 && CommonSalary(userOrder, users, salaries) == 0.0
      ensures CommonCharity(userOrder, charities) == 0.0 && CommonTotalCharity(userOrder, charities) == 0.0
    {
      this.cfg := cfg;
      this.currencies := currencies;
      this.startedAt := startedAt;
      users, userOrder := map[], [];
      salaries, bet20Salaries, charities := map[], map[], map[];
      reports, operations := [], [];
    }

    /** The records of one user that a report touches. */
    function BooksOf(u: UserId): Books
      reads this
      requires u in users && u in salaries && u in bet20Salaries && u in charities
    {
      Books(users[u], salaries[u], bet20Salaries[u], charities[u])
    }

    /** The salary table a `SalaryPartner` choice selects. */
    function Table(kind: SalaryKind): map<UserId, Account>
      reads this
    {
      if kind == Default then salaries else bet20Salaries
    }

    /**
     * The business branch of `handle_balances_form`: the four rollups of this database
     * combined by `BusinessTotal`. It is below the common balance exactly by the three
     * magnitudes, and equal to it only when the common misha balance and both common
     * salaries are zero.
     */
    method BusinessBalance() returns (total: real)
      requires Valid()
      ensures total == BusinessTotal(CommonBalance(userOrder, users), CommonMishaBalance(userOrder, users),
                                     CommonSalary(userOrder, users, salaries), CommonSalary(userOrder, users, bet20Salaries))
      ensures total <= CommonBalance(userOrder, users)
      ensures total == CommonBalance(userOrder, users) <==>
        CommonMishaBalance(userOrder, users) == 0.0 && CommonSalary(userOrder, users, salaries) == 0.0
        && CommonSalary(userOrder, users, bet20Salaries) == 0.0
    {
      var balance := CommonBalance(userOrder, users);
      var misha := CommonMishaBalance(userOrder, users);
      var salary := CommonSalary(userOrder, users, salaries);
      var bet20Salary := CommonSalary(userOrder, users, bet20Salaries);
      total := BusinessTotal(balance, misha, salary, bet20Salary);
    }

    /**
     * `handle_create_report_confirm`. Rejecting creates nothing. Accepting stores the
     * draft as a report in euro and applies `CreateDelta` to its user's books; the common
     * balance moves by the profit when the user is active and both charity rollups by
     * the charity share of the stake.
     */
    method ConfirmReport(uid: UserId, d: Draft, choice: Confirmation, now: Instant) returns (created: Option<Report>)
      requires Valid() && d.step == Confirm
      modifies this`users, this`salaries, this`bet20Salaries, this`charities, this`reports
      ensures Valid()
      ensures created.Some? <==> choice == Accept && uid in old(users)
      ensures created.None? ==>
        && users == old(users) && salaries == old(salaries) && bet20Salaries == old(bet20Salaries)
        && charities == old(charities) && reports == old(reports)
      ensures created.Some? ==>
        var r := created.value;
        && r == DraftReport(d, uid, currencies[old(users)[uid].currency], now)
        && reports == old(reports) + [r]
        && BooksOf(uid) == Apply(old(BooksOf(uid)), CreateDelta(cfg, r))
        && users == old(users)[uid := BooksOf(uid).user]
        && salaries == old(salaries)[uid := BooksOf(uid).salary]
        && bet20Salaries == old(bet20Salaries)[uid := BooksOf(uid).bet20Salary]
        && charities == old(charities)[uid := BooksOf(uid).charity]
      ensures created.Some? ==>
        var r := created.value;
        && CommonBalance(userOrder, users)
             == old(CommonBalance(userOrder, users)) + (if users[uid].active then r.Profit() else 0.0)
        && CommonCharity(userOrder, charities) == old(CommonCharity(userOrder, charities)) + CharityShare(cfg, r)
        && CommonTotalCharity(userOrder, charities) == old(CommonTotalCharity(userOrder, charities)) + CharityShare(cfg, r)
    {
      if choice == Reject || uid !in users {
        return None;
      }
      ghost var before := BooksOf(uid);
      ghost var users0, salaries0, bet20Salaries0, charities0 := users, salaries, bet20Salaries, charities;
      var currency := currencies[users[uid].currency];
      var r := DraftReport(d, uid, currency, now);
      ghost var delta := CreateDelta(cfg, r);
      ghost var after := Apply(before, delta);
      ReportAdded(userOrder, users, salaries, bet20Salaries, charities, currencies, reports, r);
      BooksEdit(userOrder, users, salaries, bet20Salaries, charities, currencies, reports + [r], uid, after);
      reports := reports + [r];
      PostReport(uid, r);
      assert users == users0[uid := after.user] && charities == charities0[uid := after.charity];
      assert salaries == salaries0[uid := after.salary] && bet20Salaries == bet20Salaries0[uid := after.bet20Salary];
      assert delta.balance == r.Profit() && delta.charity == Change(CharityShare(cfg, r), CharityShare(cfg, r));
      assert CommonBalance(userOrder, users)
          == CommonBalance(userOrder, users0) + (if users0[uid].active then r.Profit() else 0.0) by {
        DeltaMovesBalanceRollups(userOrder, users0, salaries0, bet20Salaries0, charities0, uid, delta);
      }
      assert && CommonCharity(userOrder, charities) == CommonCharity(userOrder, charities0) + CharityShare(cfg, r)
             && CommonTotalCharity(userOrder, charities) == CommonTotalCharity(userOrder, charities0) + CharityShare(cfg, r) by {
        DeltaMovesCharityRollups(userOrder, charities0, uid, delta, before);
      }
      created := Some(r);
    }

    /** The ledger writes of an accepted report, in the handler's order. */
    method PostReport(uid: UserId, r: Report)
      requires uid in users && uid in salaries && uid in bet20Salaries && uid in charities
      modifies this`users, this`salaries, this`bet20Salaries, this`charities
      ensures uid in users && uid in salaries && uid in bet20Salaries && uid in charities
      ensures BooksOf(uid) == Apply(old(BooksOf(uid)), CreateDelta(cfg, r))
      ensures users == old(users)[uid := BooksOf(uid).user]
      ensures salaries == old(salaries)[uid := BooksOf(uid).salary]
      ensures bet20Salaries == old(bet20Salaries)[uid := BooksOf(uid).bet20Salary]
      ensures charities == old(charities)[uid := BooksOf(uid).charity]
    {
      AccrueCommission(uid, r);
      users := users[uid := users[uid].(balance := users[uid].balance + r.Profit())];
      if r.partner == cfg.mishaPartnerId {
        users := users[uid := users[uid].(mishaBalance := users[uid].mishaBalance + r.Profit() * 0.5)];
      }
      var share := r.amount * cfg.charityFraction;
      var c := charities[uid];
      charities := charities[uid := c.(amount := c.amount + share, totalAmount := c.totalAmount + share)];
    }
  
    /** The salary writes of an accepted report: the fine of an erroneous loss, or the accrual. */
    method AccrueCommission(uid: UserId, r: Report)
      requires uid in salaries && uid in bet20Salaries
      modifies this`salaries, this`bet20Salaries
      ensures uid in salaries && uid in bet20Salaries
      ensures salaries == old(salaries)[uid := Post(old(salaries)[uid], CreateDelta(cfg, r).salary)]
      ensures bet20Salaries == old(bet20Salaries)[uid := Post(old(bet20Salaries)[uid], CreateDelta(cfg, r).bet20Salary)]
    {
      var bet20 := r.partner == cfg.bet20PartnerId;
      var fraction := if bet20 then cfg.bet20SalaryFraction else r.salaryPercent as real / 100.0;
      ghost var delta := CreateDelta(cfg, r);
      if r.erroneous {
        if r.Profit() < 0.0 {
          var fine := r.Profit() * 3.0 * cfg.defaultSalaryFraction;
          salaries := salaries[uid := salaries[uid].(amount := salaries[uid].amount + fine)];
        }
        assert delta.bet20Salary == Untouched;
        assert salaries[uid] == Post(old(salaries)[uid], delta.salary);
      } else {
        var gain := r.Profit() * fraction;
        if bet20 {
          var s := bet20Salaries[uid];
          bet20Salaries := bet20Salaries[uid := s.(amount := s.amount + gain, totalAmount := s.totalAmount + gain)];
          assert delta.salary == Untouched;
          assert Post(old(salaries)[uid], delta.salary) == old(salaries)[uid];
          assert bet20Salaries[uid] == Post(old(bet20Salaries)[uid], delta.bet20Salary);
        } else {
          var s := salaries[uid];
          salaries := salaries[uid := s.(amount := s.amount + gain, totalAmount := s.totalAmount + gain)];
          assert delta.bet20Salary == Untouched;
          assert salaries[uid] == Post(old(salaries)[uid], delta.salary);
        }
      }
    }

    /**
     * `handle_confirm_deletion`. "No" changes nothing, and neither does an id with no
     * report. "Yes" applies `DeleteDelta` to the report's user and then deactivates the
     * report, without looking at whether it was still active: deleting a deleted report
     * applies the reversal again.
     */
    method ConfirmDeletion(reportId: int, answer: Answer) returns (deleted: Option<Report>)
      requires Valid()
      modifies this`users, this`salaries, this`bet20Salaries, this`charities, this`reports
      ensures Valid()
      ensures deleted.Some? <==> answer == Yes && 1 <= reportId <= |old(reports)|
      ensures deleted.None? ==>
        && users == old(users) && salaries == old(salaries) && bet20Salaries == old(bet20Salaries)
        && charities == old(charities) && reports == old(reports)
      ensures deleted.Some? ==>
        var r := deleted.value;
        && r == old(reports)[reportId - 1]
        && reports == old(reports)[reportId - 1 := r.(active := false)]
        && r.user in old(users)
        && BooksOf(r.user) == Apply(old(BooksOf(r.user)), DeleteDelta(cfg, r))
        && users == old(users)[r.user := BooksOf(r.user).user]
        && salaries == old(salaries)[r.user := BooksOf(r.user).salary]
        && bet20Salaries == old(bet20Salaries)[r.user := BooksOf(r.user).bet20Salary]
        && charities == old(charities)[r.user := BooksOf(r.user).charity]
      ensures deleted.Some? ==>
        var r := deleted.value;
        && CommonBalance(userOrder, users)
             == old(CommonBalance(userOrder, users)) - (if users[r.user].active then r.Profit() else 0.0)
        && CommonCharity(userOrder, charities) == old(CommonCharity(userOrder, charities)) - CharityShare(cfg, r)
        && CommonTotalCharity(userOrder, charities) == old(CommonTotalCharity(userOrder, charities)) - CharityShare(cfg, r)
    {
      if answer == No || !(1 <= reportId <= |reports|) {
        return None;
      }
      var r := reports[reportId - 1];
      var uid := r.user;
      ghost var before := BooksOf(uid);
      ghost var users0, salaries0, bet20Salaries0, charities0 := users, salaries, bet20Salaries, charities;
      ghost var delta := DeleteDelta(cfg, r);
      ghost var after := Apply(before, delta);
      BooksEdit(userOrder, users, salaries, bet20Salaries, charities, currencies, reports, uid, after);
      UnpostReport(uid, r);
      assert users == users0[uid := after.user] && charities == charities0[uid := after.charity];
      assert salaries == salaries0[uid := after.salary] && bet20Salaries == bet20Salaries0[uid := after.bet20Salary];
      DeactivateReport(reportId);
      assert delta.balance == -r.Profit() && delta.charity == Change(-CharityShare(cfg, r), -CharityShare(cfg, r));
      assert CommonBalance(userOrder, users)
          == CommonBalance(userOrder, users0) - (if users0[uid].active then r.Profit() else 0.0) by {
        DeltaMovesBalanceRollups(userOrder, users0, salaries0, bet20Salaries0, charities0, uid, delta);
      }
      assert && CommonCharity(userOrder, charities) == CommonCharity(userOrder, charities0) - CharityShare(cfg, r)
             && CommonTotalCharity(userOrder, charities) == CommonTotalCharity(userOrder, charities0) - CharityShare(cfg, r) by {
        DeltaMovesCharityRollups(userOrder, charities0, uid, delta, before);
      }
      deleted := Some(r);
    }

    /** The ledger writes of a confirmed deletion, in the handler's order. */
    method UnpostReport(uid: UserId, r: Report)
      requires uid in users && uid in salaries && uid in bet20Salaries && uid in charities
      modifies this`users, this`salaries, this`bet20Salaries, this`charities
      ensures uid in users && uid in salaries && uid in bet20Salaries && uid in charities
      ensures BooksOf(uid) == Apply(old(BooksOf(uid)), DeleteDelta(cfg, r))
      ensures users == old(users)[uid := BooksOf(uid).user]
      ensures salaries == old(salaries)[uid := BooksOf(uid).salary]
      ensures bet20Salaries == old(bet20Salaries)[uid := BooksOf(uid).bet20Salary]
      ensures charities == old(charities)[uid := BooksOf(uid).charity]
    {
      ReverseCommission(uid, r);
      users := users[uid := users[uid].(balance := users[uid].balance - r.Profit())];
      if r.partner == cfg.mishaPartnerId {
        users := users[uid := users[uid].(mishaBalance := users[uid].mishaBalance - r.Profit() * 0.5)];
      }
      var share := r.amount * cfg.charityFraction;
      var c := charities[uid];
      charities := charities[uid := c.(amount := c.amount - share, totalAmount := c.totalAmount - share)];
    }

    /** The salary writes of a confirmed deletion: the forgiven fine, then the reversal. */
    method ReverseCommission(uid: UserId, r: Report)
      requires uid in salaries && uid in bet20Salaries
      modifies this`salaries, this`bet20Salaries
      ensures uid in salaries && uid in bet20Salaries
      ensures salaries == old(salaries)[uid := Post(old(salaries)[uid], DeleteDelta(cfg, r).salary)]
      ensures bet20Salaries == old(bet20Salaries)[uid := Post(old(bet20Salaries)[uid], DeleteDelta(cfg, r).bet20Salary)]
    {
      var bet20 := r.partner == cfg.bet20PartnerId;
      var fraction := if bet20 then cfg.bet20SalaryFraction else r.salaryPercent as real / 100.0;
      if r.erroneous && !bet20 {
        fraction := 0.0;
        if r.Profit() < 0.0 {
          var fine := r.Profit() * 3.0 * cfg.defaultSalaryFraction;
          salaries := salaries[uid := salaries[uid].(amount := salaries[uid].amount - fine)];
        }
      }
      var loss := r.amount * fraction;
      ghost var delta := DeleteDelta(cfg, r);
      if bet20 {
        var s := bet20Salaries[uid];
        bet20Salaries := bet20Salaries[uid := s.(amount := s.amount - loss, totalAmount := s.totalAmount - loss)];
        assert salaries == old(salaries);
        assert delta.salary == Untouched;
        assert Post(old(salaries)[uid], delta.salary) == old(salaries)[uid];
        assert bet20Salaries[uid] == Post(old(bet20Salaries)[uid], delta.bet20Salary);
      } else {
        var s := salaries[uid];
        salaries := salaries[uid := s.(amount := s.amount - loss, totalAmount := s.totalAmount - loss)];
        assert delta.bet20Salary == Untouched;
        assert salaries[uid] == Post(old(salaries)[uid], delta.salary);
      }
    }

    /** `deactive_report`: only the report's `active` flag changes; an unknown id changes nothing. */
    method DeactivateReport(reportId: int)
      requires Valid()
      modifies this`reports
      ensures Valid()
      ensures 1 <= reportId <= |old(reports)| ==>
        reports == old(reports)[reportId - 1 := old(reports)[reportId - 1].(active := false)]
      ensures !(1 <= reportId <= |old(reports)|) ==> reports == old(reports)
    {
      if 1 <= reportId <= |reports| {
        reports := reports[reportId - 1 := reports[reportId - 1].(active := false)];
      }
    }
  
    /**
     * `handle_remove_user_salary_user`. With no account nothing happens; an account
     * holding nothing positive is left alone; otherwise its `amount` is paid out: it
     * becomes 0, `last_debiting_at` is stamped, the user's balance falls by the amount
     * and `total_amount` stays. The user's balance less that account's amount never
     * changes, and neither does the common balance less the common salary of that kind.
     */
    method CollectSalary(uid: UserId, kind: SalaryKind, now: Instant) returns (outcome: Collection)
      requires Valid()
      modifies this`users, this`salaries, this`bet20Salaries
      ensures Valid()
      ensures outcome == NoSuchAccount <==> uid !in old(users)
      ensures uid in old(users) ==> (outcome.Collected? <==> old(Table(kind))[uid].amount > 0.0)
      ensures !outcome.Collected? ==>
        users == old(users) && salaries == old(salaries) && bet20Salaries == old(bet20Salaries)
      ensures outcome.Collected? ==>
        var a := old(Table(kind))[uid];
        && outcome.amount == a.amount
        && Table(kind) == old(Table(kind))[uid := a.(amount := 0.0, lastDebitingAt := Some(now))]
        && (kind == Default ==> bet20Salaries == old(bet20Salaries))
        && (kind == Bet20 ==> salaries == old(salaries))
        && users == old(users)[uid := old(users)[uid].(balance := old(users)[uid].balance - a.amount)]
      ensures uid in users ==>
        users[uid].balance - Table(kind)[uid].amount == old(users[uid].balance - Table(kind)[uid].amount)
      ensures CommonBalance(userOrder, users) - CommonSalary(userOrder, users, Table(kind))
           == old(CommonBalance(userOrder, users) - CommonSalary(userOrder, users, Table(kind)))
    {
      var table := Table(kind);
      if uid !in table {
        return NoSuchAccount;
      }
      var account := table[uid];
      if account.amount <= 0.0 {
        return NothingToCollect;
      }
      PayOut(uid, kind, now);
      outcome := Collected(account.amount);
    }

    /** The writes of a payout: the account first, then its owner's balance. */
    method PayOut(uid: UserId, kind: SalaryKind, now: Instant)
      requires Valid() && uid in users
      modifies this`users, this`salaries, this`bet20Salaries
      ensures Valid()
      ensures var a := old(Table(kind))[uid];
        && Table(kind) == old(Table(kind))[uid := a.(amount := 0.0, lastDebitingAt := Some(now))]
        && users == old(users)[uid := old(users)[uid].(balance := old(users)[uid].balance - a.amount)]
      ensures kind == Default ==> bet20Salaries == old(bet20Salaries)
      ensures kind == Bet20 ==> salaries == old(salaries)
      ensures CommonBalance(userOrder, users) - CommonSalary(userOrder, users, Table(kind))
           == old(CommonBalance(userOrder, users) - CommonSalary(userOrder, users, Table(kind)))
    {
      if kind == Default {
        PaySalaryOut(uid, now);
        assert Table(kind) == salaries && old(Table(kind)) == old(salaries);
      } else {
        PayBet20Out(uid, now);
        assert Table(kind) == bet20Salaries && old(Table(kind)) == old(bet20Salaries);
      }
    }

    /** A payout from the Salary table. */
    method PaySalaryOut(uid: UserId, now: Instant)
      requires Valid() && uid in users
      modifies this`users, this`salaries
      ensures Valid()
      ensures var a := old(salaries)[uid];
        && salaries == old(salaries)[uid := a.(amount := 0.0, lastDebitingAt := Some(now))]
        && users == old(users)[uid := old(users)[uid].(balance := old(users)[uid].balance - a.amount)]
      ensures CommonBalance(userOrder, users) - CommonSalary(userOrder, users, salaries)
           == old(CommonBalance(userOrder, users) - CommonSalary(userOrder, users, salaries))
    {
      var account := salaries[uid];
      var emptied := account.(amount := 0.0, lastDebitingAt := Some(now));
      var user := users[uid].(balance := users[uid].balance - account.amount);
      SalaryEdit(userOrder, users, salaries, bet20Salaries, charities, currencies, reports, uid, emptied);
      UserEdit(userOrder, users, salaries[uid := emptied], bet20Salaries, charities, currencies, reports, uid, user);
      PayOutKeepsNet(userOrder, users, salaries, uid, emptied);
      salaries := salaries[uid := emptied];
      users := users[account.user := user];
    }

    /** A payout from the Bet20Salary table. */
    method PayBet20Out(uid: UserId, now: Instant)
      requires Valid() && uid in users
      modifies this`users, this`bet20Salaries
      ensures Valid()
      ensures var a := old(bet20Salaries)[uid];
        && bet20Salaries == old(bet20Salaries)[uid := a.(amount := 0.0, lastDebitingAt := Some(now))]
        && users == old(users)[uid := old(users)[uid].(balance := old(users)[uid].balance - a.amount)]
      ensures CommonBalance(userOrder, users) - CommonSalary(userOrder, users, bet20Salaries)
           == old(CommonBalance(userOrder, users) - CommonSalary(userOrder, users, bet20Salaries))
    {
      var account := bet20Salaries[uid];
      var emptied := account.(amount := 0.0, lastDebitingAt := Some(now));
      var user := users[uid].(balance := users[uid].balance - account.amount);
      Bet20Edit(userOrder, users, salaries, bet20Salaries, charities, currencies, reports, uid, emptied);
      UserEdit(userOrder, users, salaries, bet20Salaries[uid := emptied], charities, currencies, reports, uid, user);
      PayOutKeepsNet(userOrder, users, bet20Salaries, uid, emptied);
      bet20Salaries := bet20Salaries[uid := emptied];
      users := users[account.user := user];
    }

    /**
     * The `remove_everyone` branch of `handle_manage_salary`: every account of an active
     * user that holds something positive is paid out as `CollectSalary` does; accounts of
     * inactive users and accounts at or below 0 are skipped. Afterwards no active user's
     * account of that kind is positive, so the common salary is at most 0, and the common
     * balance less the common salary is what it was.
     */
    method CollectEveryone(kind: SalaryKind, now: Instant)
      requires Valid()
      modifies this`users, this`salaries, this`bet20Salaries
      ensures Valid()
      ensures users.Keys == old(users).Keys && Table(kind).Keys == old(Table(kind)).Keys
      ensures kind == Default ==> bet20Salaries == old(bet20Salaries)
      ensures kind == Bet20 ==> salaries == old(salaries)
      ensures forall u | u in old(users) :: CollectedRow(old(users), old(Table(kind)), users, Table(kind), u, now)
      ensures forall u | u in users && users[u].active :: Table(kind)[u].amount <= 0.0
      ensures CommonSalary(userOrder, users, Table(kind)) <= 0.0
      ensures CommonBalance(userOrder, users) - CommonSalary(userOrder, users, Table(kind))
           == old(CommonBalance(userOrder, users) - CommonSalary(userOrder, users, Table(kind)))
    {
      ghost var users0, table0 := users, Table(kind);
      for i := 0 to |userOrder|
        invariant Valid()
        invariant users.Keys == users0.Keys && Table(kind).Keys == table0.Keys
        invariant kind == Default ==> bet20Salaries == old(bet20Salaries)
        invariant kind == Bet20 ==> salaries == old(salaries)
        invariant SweptUpTo(userOrder, i, users0, table0, users, Table(kind), now)
        invariant CommonBalance(userOrder, users) - CommonSalary(userOrder, users, Table(kind))
               == old(CommonBalance(userOrder, users) - CommonSalary(userOrder, users, Table(kind)))
      {
        var uid := userOrder[i];
        ghost var usersBefore, tableBefore := users, Table(kind);
        SweepRow(uid, kind, now);
        SweptStep(userOrder, i, users0, table0, usersBefore, tableBefore, users, Table(kind), now);
      }
      SweepComplete(userOrder, users0, table0, users, Table(kind), now);
    }

    /** One row of the sweep: the account is paid out when its user is active and it is positive. */
    method SweepRow(uid: UserId, kind: SalaryKind, now: Instant)
      requires Valid() && uid in users
      modifies this`users, this`salaries, this`bet20Salaries
      ensures Valid()
      ensures users.Keys == old(users).Keys && Table(kind).Keys == old(Table(kind)).Keys
      ensures kind == Default ==> bet20Salaries == old(bet20Salaries)
      ensures kind == Bet20 ==> salaries == old(salaries)
      ensures CollectedRow(old(users), old(Table(kind)), users, Table(kind), uid, now)
      ensures users == old(users)[uid := users[uid]] && Table(kind) == old(Table(kind))[uid := Table(kind)[uid]]
      ensures CommonBalance(userOrder, users) - CommonSalary(userOrder, users, Table(kind))
           == old(CommonBalance(userOrder, users) - CommonSalary(userOrder, users, Table(kind)))
    {
      if users[uid].active && Table(kind)[uid].amount > 0.0 {
        PayOut(uid, kind, now);
      }
    }

    /**
     * `handle_remove_chairty`: every charity record, whatever its user's state, gets
     * `amount` 0 and a `last_debiting_at` stamp; `total_amount` stays. So the common
     * charity becomes 0 and the common total charity does not move.
     */
    method RemoveCharity(now: Instant)
      requires Valid()
      modifies this`charities
      ensures Valid()
      ensures charities.Keys == old(charities).Keys
      ensures forall u | u in charities :: charities[u] == old(charities)[u].(amount := 0.0, lastDebitingAt := Some(now))
      ensures CommonCharity(userOrder, charities) == 0.0
      ensures CommonTotalCharity(userOrder, charities) == old(CommonTotalCharity(userOrder, charities))
    {
      ghost var charities0 := charities;
      for i := 0 to |userOrder|
        invariant Valid()
        invariant charities.Keys == charities0.Keys
        invariant ClearedUpTo(userOrder, i, charities0, charities, now)
      {
        ghost var before := charities;
        ClearCharity(userOrder[i], now);
        ClearedStep(userOrder, i, charities0, before, charities, now);
      }
      ClearComplete(userOrder, charities0, charities, now);
    }

    /** One record of `handle_remove_chairty`. */
    method ClearCharity(uid: UserId, now: Instant)
      requires Valid() && uid in charities
      modifies this`charities
      ensures Valid()
      ensures charities == old(charities)[uid := old(charities)[uid].(amount := 0.0, lastDebitingAt := Some(now))]
    {
      var c := charities[uid].(amount := 0.0, lastDebitingAt := Some(now));
      CharityEdit(userOrder, users, salaries, bet20Salaries, charities, currencies, reports, uid, c);
      charities := charities[uid := c];
    }

    /**
     * `handle_accept_new_user`. A user who already has a row, active or not, is not
     * accepted again, and declining creates nothing. Accepting creates the user with
     * `create_user`'s defaults and a zeroed Salary, Bet20Salary and Charity record, as
     * the last row of each table; the chat's username is a parameter. No rollup moves.
     */
    method AcceptNewUser(uid: UserId, username: string, admission: Admission, now: Instant) returns (created: bool)
      requires Valid()
      modifies this`users, this`userOrder, this`salaries, this`bet20Salaries, this`charities
      ensures Valid()
      ensures created <==> uid !in old(users) && admission == Admit
      ensures !created ==>
        && users == old(users) && userOrder == old(userOrder) && salaries == old(salaries)
        && bet20Salaries == old(bet20Salaries) && charities == old(charities)
      ensures created ==>
        && users == old(users)[uid := NewUser(uid, username, now)]
        && userOrder == old(userOrder) + [uid]
        && salaries == old(salaries)[uid := NewAccount(uid)]
        && bet20Salaries == old(bet20Salaries)[uid := NewAccount(uid)]
        && charities == old(charities)[uid := NewAccount(uid)]
      ensures && CommonBalance(userOrder, users) == old(CommonBalance(userOrder, users))
              && CommonMishaBalance(userOrder, users) == old(CommonMishaBalance(userOrder, users))
              && CommonSalary(userOrder, users, salaries) == old(CommonSalary(userOrder, users, salaries))
              && CommonSalary(userOrder, users, bet20Salaries) == old(CommonSalary(userOrder, users, bet20Salaries))
              && CommonCharity(userOrder, charities) == old(CommonCharity(userOrder, charities))
              && CommonTotalCharity(userOrder, charities) == old(CommonTotalCharity(userOrder, charities))
    {
      if uid in users {
        return false;
      }
      match admission
      case Decline =>
        return false;
      case Admit =>
        assert uid !in userOrder;
        EnrolKeepsRollups(userOrder, users, salaries, bet20Salaries, charities, uid, username, now);
        Enrol(uid, username, now);
        return true;
    }

    /** The writes of an accepted membership: the user, then the three records. */
    method Enrol(uid: UserId, username: string, now: Instant)
      requires Valid() && uid !in users
      modifies this`users, this`userOrder, this`salaries, this`bet20Salaries, this`charities
      ensures Valid()
      ensures users == old(users)[uid := NewUser(uid, username, now)]
      ensures userOrder == old(userOrder) + [uid]
      ensures salaries == old(salaries)[uid := NewAccount(uid)]
      ensures bet20Salaries == old(bet20Salaries)[uid := NewAccount(uid)]
      ensures charities == old(charities)[uid := NewAccount(uid)]
    {
      EnrolKeepsConsistent(userOrder, users, salaries, bet20Salaries, charities, currencies, reports, uid, username, now);
      users := users[uid := NewUser(uid, username, now)];
      userOrder := userOrder + [uid];
      salaries := salaries[uid := NewAccount(uid)];
      bet20Salaries := bet20Salaries[uid := NewAccount(uid)];
      charities := charities[uid := NewAccount(uid)];
    }

    /**
     * `handle_issue_balance_amount`: text that is not a float is refused; otherwise the
     * chosen user's balance grows by the number, which moves the common balance by it
     * when the user is active. An unknown user makes the handler fail before writing.
     */
    method IssueBalance(uid: UserId, text: string, parse: string -> Option<real>) returns (issued: bool)
      requires Valid()
      modifies this`users
      ensures Valid()
      ensures issued <==> parse(text).Some? && uid in old(users)
      ensures !issued ==> users == old(users)
      ensures issued ==>
        && users == old(users)[uid := old(users)[uid].(balance := old(users)[uid].balance + parse(text).value)]
        && CommonBalance(userOrder, users)
           == old(CommonBalance(userOrder, users)) + (if users[uid].active then parse(text).value else 0.0)
    {
      if parse(text).None? || uid !in users {
        return false;
      }
      var v := users[uid].(balance := users[uid].balance + parse(text).value);
      SumActiveUsersUpdate(userOrder, users, uid, v, BalanceOf);
      UserEdit(userOrder, users, salaries, bet20Salaries, charities, currencies, reports, uid, v);
      users := users[uid := v];
      issued := true;
    }

    /**
     * `handle_set_misha_balance_amount`: text that `isdigit` refuses is refused;
     * otherwise the misha balance is set to the number (not added to it), which moves the
     * common misha balance by the difference when the user is active.
     */
    method SetMishaBalance(uid: UserId, text: string) returns (stored: bool)
      requires Valid()
      modifies this`users
      ensures Valid()
      ensures stored <==> IsDigits(text) && uid in old(users)
      ensures !stored ==> users == old(users)
      ensures stored ==>
        && users == old(users)[uid := old(users)[uid].(mishaBalance := DigitsValue(text) as real)]
        && CommonMishaBalance(userOrder, users)
           == old(CommonMishaBalance(userOrder, users))
              + (if users[uid].active then DigitsValue(text) as real - old(users)[uid].mishaBalance else 0.0)
    {
      if !IsDigits(text) || uid !in users {
        return false;
      }
      var v := users[uid].(mishaBalance := DigitsValue(text) as real);
      SumActiveUsersUpdate(userOrder, users, uid, v, MishaBalanceOf);
      UserEdit(userOrder, users, salaries, bet20Salaries, charities, currencies, reports, uid, v);
      users := users[uid := v];
      stored := true;
    }

    /**
     * `handle_set_user_salary_amount`: text that is not a float is refused; otherwise the
     * chosen account's `amount` is set to the number and `last_debiting_at` stamped.
     * Neither `total_amount` nor the user's balance changes, so the common salary moves
     * by the difference when the user is active.
     */
    method SetUserSalary(uid: UserId, kind: SalaryKind, text: string, parse: string -> Option<real>, now: Instant)
      returns (stored: bool)
      requires Valid()
      modifies this`salaries, this`bet20Salaries
      ensures Valid()
      ensures stored <==> parse(text).Some? && uid in old(users)
      ensures !stored ==> salaries == old(salaries) && bet20Salaries == old(bet20Salaries)
      ensures stored ==>
        && Table(kind) == old(Table(kind))[uid := old(Table(kind))[uid].(amount := parse(text).value,
                                                                          lastDebitingAt := Some(now))]
        && (kind == Default ==> bet20Salaries == old(bet20Salaries))
        && (kind == Bet20 ==> salaries == old(salaries))
        && CommonSalary(userOrder, users, Table(kind))
           == old(CommonSalary(userOrder, users, Table(kind)))
              + (if users[uid].active then parse(text).value - old(Table(kind))[uid].amount else 0.0)
    {
      if parse(text).None? || uid !in users {
        return false;
      }
      var amount := parse(text).value;
      var a := Table(kind)[uid].(amount := amount, lastDebitingAt := Some(now));
      AccountChangeMovesSalaryRollup(userOrder, users, Table(kind), uid, users[uid], a);
      assert users[uid := users[uid]] == users;
      if kind == Default {
        SalaryEdit(userOrder, users, salaries, bet20Salaries, charities, currencies, reports, uid, a);
        salaries := salaries[uid := a];
      } else {
        Bet20Edit(userOrder, users, salaries, bet20Salaries, charities, currencies, reports, uid, a);
        bet20Salaries := bet20Salaries[uid := a];
      }
      stored := true;
    }

    /** `create_operation`: the new operation becomes the last row. */
    method Log(op: Operation)
      requires Valid()
      modifies this`operations
      ensures Valid()
      ensures operations == old(operations) + [op]
    {
      operations := operations + [op];
    }

    /** Saving an edited user record that keeps its id and currency. */
    method Store(uid: UserId, v: User)
      requires Valid() && uid in users && v.id == uid && v.currency == users[uid].currency
      modifies this`users
      ensures Valid()
      ensures users == old(users)[uid := v]
    {
      UserEdit(userOrder, users, salaries, bet20Salaries, charities, currencies, reports, uid, v);
      users := users[uid := v];
    }

    /**
     * `handle_create_operation_reason` of the administrator: an operation with the amount
     * as entered (0 when none was stored) is recorded, and the user's balance grows by it;
     * the misha balance grows too when the chosen balance type is `"misha"`. The new
     * operation carries `startedAt`, the moment the `created_at` default was evaluated.
     */
    method RecordAdminOperation(uid: UserId, amount: Option<real>, balanceType: string, reason: string)
      returns (recorded: bool)
      requires Valid()
      modifies this`users, this`operations
      ensures Valid()
      ensures recorded <==> uid in old(users)
      ensures !recorded ==> users == old(users) && operations == old(operations)
      ensures recorded ==>
        var a := amount.GetOr(0.0);
        var u := old(users)[uid];
        && operations == old(operations) + [Operation(uid, a, reason, startedAt)]
        && users == old(users)[uid := u.(balance := u.balance + a,
                                         mishaBalance := if ToMisha(balanceType) then u.mishaBalance + a
                                                         else u.mishaBalance)]
        && CommonBalance(userOrder, users) == old(CommonBalance(userOrder, users)) + (if u.active then a else 0.0)
    {
      if uid !in users {
        return false;
      }
      var a := amount.GetOr(0.0);
      var u := users[uid];
      assert u.id == uid;
      Log(Operation(u.id, a, reason, startedAt));
      var v := u.(balance := u.balance + a,
                  mishaBalance := if ToMisha(balanceType) then u.mishaBalance + a else u.mishaBalance);
      assert CommonBalance(userOrder, users[uid := v])
          == CommonBalance(userOrder, users) + (if v.active then a else 0.0) by {
        SumActiveUsersUpdate(userOrder, users, uid, v, BalanceOf);
      }
      Store(uid, v);
      recorded := true;
    }

    /**
     * `handle_create_operation_reason` of a member: the operation is recorded with the
     * amount converted to euro by the member's currency, but the balance grows by the
     * amount as entered.
     */
    method RecordUserOperation(uid: UserId, amount: Option<real>, reason: string) returns (recorded: bool)
      requires Valid()
      modifies this`users, this`operations
      ensures Valid()
      ensures recorded <==> uid in old(users)
      ensures !recorded ==> users == old(users) && operations == old(operations)
      ensures recorded ==>
        var a := amount.GetOr(0.0);
        var u := old(users)[uid];
        && operations == old(operations) + [Operation(uid, currencies[u.currency].ToEur(a), reason, startedAt)]
        && users == old(users)[uid := u.(balance := u.balance + a)]
        && CommonBalance(userOrder, users) == old(CommonBalance(userOrder, users)) + (if u.active then a else 0.0)
    {
      if uid !in users {
        return false;
      }
      var a := amount.GetOr(0.0);
      var currency := currencies[users[uid].currency];
      Log(Operation(uid, currency.ToEur(a), reason, startedAt));
      var v := users[uid].(balance := users[uid].balance + a);
      assert CommonBalance(userOrder, users[uid := v])
          == CommonBalance(userOrder, users) + (if v.active then a else 0.0) by {
        SumActiveUsersUpdate(userOrder, users, uid, v, BalanceOf);
      }
      Store(uid, v);
      recorded := true;
    }
  }
}
