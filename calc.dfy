/**
 * The read-side rollups: the sums of `src/services/calc.py` and the totals the admin
 * handlers compute over fetched reports. The `round(..., 2)` around each sum is not
 * modelled.
 */
module Calc {
  import opened Wrappers
  import opened Settings
  import opened Models
  import opened Queries

  /** Python's `sum([f(x) for x in s])`, added up from the front. */
  function SumOf<T>(s: seq<T>, f: T -> real): real {
    if s == [] then 0.0 else SumOf(s[..|s| - 1], f) + f(s[|s| - 1])
  }

  function BalanceOf(u: User): real { u.balance }
  function MishaBalanceOf(u: User): real { u.mishaBalance }
  function AmountOf(a: Account): real { a.amount }
  function TotalAmountOf(a: Account): real { a.totalAmount }
  function StakeOf(r: Report): real { r.amount }
  function RefundOf(r: Report): real { r.refundAmount }
  function ProfitOf(r: Report): real { r.Profit() }

  lemma {:induction false} SumOfConcat<T>(a: seq<T>, b: seq<T>, f: T -> real)
    ensures SumOf(a + b, f) == SumOf(a, f) + SumOf(b, f)
  {
    if b != [] {
      var init := b[..|b| - 1];
      assert (a + b)[..|a + b| - 1] == a + init;
      SumOfConcat(a, init, f);
    } else {
      assert a + b == a;
    }
  }

  /** The summed profit is the summed refunds less the turnover. */
  lemma {:induction false} ProfitSumIsRefundsLessTurnover(rs: seq<Report>)
    ensures SumOf(rs, ProfitOf) == SumOf(rs, RefundOf) - SumOf(rs, StakeOf)
  {
    if rs != [] {
      ProfitSumIsRefundsLessTurnover(rs[..|rs| - 1]);
    }
  }

  // ---- calc.py: global rollups over the tables ----

  /** `get_common_balance`. */
  function CommonBalance(order: seq<UserId>, users: map<UserId, User>): real
    requires Covers(order, users)
  {
    SumOf(ActiveUsersOf(order, users), BalanceOf)
  }

  /** `get_common_misha_balance`. */
  function CommonMishaBalance(order: seq<UserId>, users: map<UserId, User>): real
    requires Covers(order, users)
  {
    SumOf(ActiveUsersOf(order, users), MishaBalanceOf)
  }

  /** `get_common_salary` and `get_common_bet20_salary`, on the table given. */
  function CommonSalary(order: seq<UserId>, users: map<UserId, User>, accounts: map<UserId, Account>): real
    requires Covers(order, users) && Covers(order, accounts)
  {
    SumOf(ActiveAccountsOf(order, users, accounts), AmountOf)
  }

  /** `get_common_charity`. */
  function CommonCharity(order: seq<UserId>, charities: map<UserId, Account>): real
    requires Covers(order, charities)
  {
    SumOf(AccountsOf(order, charities), AmountOf)
  }

  /** `get_common_total_charity`. */
  function CommonTotalCharity(order: seq<UserId>, charities: map<UserId, Account>): real
    requires Covers(order, charities)
  {
    SumOf(AccountsOf(order, charities), TotalAmountOf)
  }

  /** A user that is not in `order` does not take part in `get_users`. */
  lemma {:induction false} ActiveUsersIgnoreOthers(order: seq<UserId>, users: map<UserId, User>, k: UserId, v: User)
    requires Covers(order, users) && k !in order
    ensures Covers(order, users[k := v])
    ensures ActiveUsersOf(order, users[k := v]) == ActiveUsersOf(order, users)
  {
    if order != [] {
      ActiveUsersIgnoreOthers(order[..|order| - 1], users, k, v);
    }
  }

  /**
   * Changing one user's record, without changing whether it is active, changes a sum
   * over `get_users` by exactly the change of that record's term when the user is
   * active, and not at all otherwise.
   */
  lemma {:induction false} SumActiveUsersUpdate(order: seq<UserId>, users: map<UserId, User>, k: UserId, v: User, f: User -> real)
    requires Covers(order, users) && NoDuplicates(order) && k in order && v.active == users[k].active
    ensures Covers(order, users[k := v])
    ensures SumOf(ActiveUsersOf(order, users[k := v]), f)
         == SumOf(ActiveUsersOf(order, users), f) + (if v.active then f(v) - f(users[k]) else 0.0)
  {
    var init := order[..|order| - 1];
    var last := order[|order| - 1];
    assert order == init + [last];
    var us := ActiveUsersOf(init, users);
    var us' := ActiveUsersOf(init, users[k := v]);
    if last == k {
      assert k !in init;
      ActiveUsersIgnoreOthers(init, users, k, v);
      if v.active {
        assert (us + [v])[..|us + [v]| - 1] == us;
        assert (us + [users[k]])[..|us + [users[k]]| - 1] == us;
      }
    } else {
      SumActiveUsersUpdate(init, users, k, v, f);
      var u := users[last];
      if u.active {
        assert (us' + [u])[..|us' + [u]| - 1] == us';
        assert (us + [u])[..|us + [u]| - 1] == us;
      }
    }
  }

  /** Changing one record of a table changes a sum over all its records by the change of that term. */
  lemma {:induction false} SumAccountsUpdate(order: seq<UserId>, accounts: map<UserId, Account>, k: UserId, a: Account, f: Account -> real)
    requires Covers(order, accounts) && NoDuplicates(order) && k in order
    ensures Covers(order, accounts[k := a])
    ensures SumOf(AccountsOf(order, accounts[k := a]), f) == SumOf(AccountsOf(order, accounts), f) + f(a) - f(accounts[k])
  {
    var init := order[..|order| - 1];
    var last := order[|order| - 1];
    assert order == init + [last];
    var rows := AccountsOf(init, accounts);
    var rows' := AccountsOf(init, accounts[k := a]);
    assert AccountsOf(order, accounts) == rows + [accounts[last]];
    assert AccountsOf(order, accounts[k := a]) == rows' + [accounts[k := a][last]];
    assert (rows + [accounts[last]])[..|rows|] == rows;
    assert (rows' + [accounts[k := a][last]])[..|rows'|] == rows';
    if last == k {
      assert k !in init;
      SumAccountsSameTerms(init, accounts, accounts[k := a], f);
    } else {
      SumAccountsUpdate(init, accounts, k, a, f);
    }
  }

  /** Two tables whose rows agree on `f` at every key of `order` have the same sum. */
  lemma {:induction false} SumAccountsSameTerms(order: seq<UserId>, m1: map<UserId, Account>, m2: map<UserId, Account>, f: Account -> real)
    requires Covers(order, m1) && Covers(order, m2)
    requires forall i | 0 <= i < |order| :: f(m1[order[i]]) == f(m2[order[i]])
    ensures SumOf(AccountsOf(order, m1), f) == SumOf(AccountsOf(order, m2), f)
  {
    if order != [] {
      var init := order[..|order| - 1];
      var r1 := AccountsOf(init, m1);
      var r2 := AccountsOf(init, m2);
      assert (r1 + [m1[order[|order| - 1]]])[..|r1|] == r1;
      assert (r2 + [m2[order[|order| - 1]]])[..|r2|] == r2;
      SumAccountsSameTerms(init, m1, m2, f);
    }
  }

  /** A table whose every row has a zero term sums to zero. */
  lemma {:induction false} SumAccountsZero(order: seq<UserId>, m: map<UserId, Account>, f: Account -> real)
    requires Covers(order, m)
    requires forall i | 0 <= i < |order| :: f(m[order[i]]) == 0.0
    ensures SumOf(AccountsOf(order, m), f) == 0.0
  {
    if order != [] {
      var init := order[..|order| - 1];
      var rows := AccountsOf(init, m);
      assert (rows + [m[order[|order| - 1]]])[..|rows|] == rows;
      SumAccountsZero(init, m, f);
    }
  }

  /** Appending one element adds its term. */
  lemma SumOfSnoc<T>(s: seq<T>, x: T, f: T -> real)
    ensures SumOf(s + [x], f) == SumOf(s, f) + f(x)
  {
    assert (s + [x])[..|s|] == s;
  }

  /** A sum of terms none of which is positive is not positive. */
  lemma {:induction false} SumOfNonPositive<T>(s: seq<T>, f: T -> real)
    requires forall i | 0 <= i < |s| :: f(s[i]) <= 0.0
    ensures SumOf(s, f) <= 0.0
  {
    if s != [] {
      SumOfNonPositive(s[..|s| - 1], f);
    }
  }

  /** `get_salaries` only looks at whether each user is active and at its account row. */
  lemma {:induction false} ActiveAccountsAgree(order: seq<UserId>, u1: map<UserId, User>, a1: map<UserId, Account>,
                                               u2: map<UserId, User>, a2: map<UserId, Account>)
    requires Covers(order, u1) && Covers(order, a1) && Covers(order, u2) && Covers(order, a2)
    requires forall i | 0 <= i < |order| :: u1[order[i]].active == u2[order[i]].active && a1[order[i]] == a2[order[i]]
    ensures ActiveAccountsOf(order, u1, a1) == ActiveAccountsOf(order, u2, a2)
  {
    if order != [] {
      ActiveAccountsAgree(order[..|order| - 1], u1, a1, u2, a2);
    }
  }

  /** `get_users` only looks at the user rows of `order`. */
  lemma {:induction false} ActiveUsersAgree(order: seq<UserId>, u1: map<UserId, User>, u2: map<UserId, User>)
    requires Covers(order, u1) && Covers(order, u2)
    requires forall i | 0 <= i < |order| :: u1[order[i]] == u2[order[i]]
    ensures ActiveUsersOf(order, u1) == ActiveUsersOf(order, u2)
  {
    if order != [] {
      ActiveUsersAgree(order[..|order| - 1], u1, u2);
    }
  }

  /**
   * Changing one account row changes a sum over `get_salaries` by the change of its term
   * when its user is active, and not at all otherwise.
   */
  lemma {:induction false} SumActiveAccountsUpdate(order: seq<UserId>, users: map<UserId, User>,
                                                   accounts: map<UserId, Account>, k: UserId, a: Account, f: Account -> real)
    requires Covers(order, users) && Covers(order, accounts) && NoDuplicates(order) && k in order
    ensures Covers(order, accounts[k := a])
    ensures SumOf(ActiveAccountsOf(order, users, accounts[k := a]), f)
         == SumOf(ActiveAccountsOf(order, users, accounts), f) + (if users[k].active then f(a) - f(accounts[k]) else 0.0)
  {
    var init := order[..|order| - 1];
    var last := order[|order| - 1];
    assert order == init + [last];
    var rows := ActiveAccountsOf(init, users, accounts);
    var rows' := ActiveAccountsOf(init, users, accounts[k := a]);
    if last == k {
      assert k !in init;
      ActiveAccountsAgree(init, users, accounts, users, accounts[k := a]);
      if users[k].active {
        SumOfSnoc(rows, accounts[k], f);
        SumOfSnoc(rows', a, f);
      }
    } else {
      SumActiveAccountsUpdate(init, users, accounts, k, a, f);
      if users[last].active {
        SumOfSnoc(rows, accounts[last], f);
        SumOfSnoc(rows', accounts[last], f);
      }
    }
  }

  /**
   * When every active user's `f` less its account's `g` stays the same, and nobody's
   * activity changes, the sum of `f` over `get_users` less the sum of `g` over
   * `get_salaries` stays the same.
   */
  lemma {:induction false} NetOfActiveUnchanged(order: seq<UserId>, users: map<UserId, User>, accounts: map<UserId, Account>,
                                                users': map<UserId, User>, accounts': map<UserId, Account>,
                                                f: User -> real, g: Account -> real)
    requires Covers(order, users) && Covers(order, accounts) && Covers(order, users') && Covers(order, accounts')
    requires forall i | 0 <= i < |order| :: users'[order[i]].active == users[order[i]].active
    requires forall i | 0 <= i < |order| && users[order[i]].active ::
      f(users'[order[i]]) - g(accounts'[order[i]]) == f(users[order[i]]) - g(accounts[order[i]])
    ensures SumOf(ActiveUsersOf(order, users'), f) - SumOf(ActiveAccountsOf(order, users', accounts'), g)
         == SumOf(ActiveUsersOf(order, users), f) - SumOf(ActiveAccountsOf(order, users, accounts), g)
  {
    if order != [] {
      var init := order[..|order| - 1];
      var k := order[|order| - 1];
      assert forall i | 0 <= i < |init| :: init[i] == order[i];
      NetOfActiveUnchanged(init, users, accounts, users', accounts', f, g);
      assert users'[k].active == users[k].active by { assert order[|order| - 1] == k; }
      if users[k].active {
        assert f(users'[k]) - g(accounts'[k]) == f(users[k]) - g(accounts[k]) by { assert order[|order| - 1] == k; }
        SumOfSnoc(ActiveUsersOf(init, users), users[k], f);
        SumOfSnoc(ActiveUsersOf(init, users'), users'[k], f);
        SumOfSnoc(ActiveAccountsOf(init, users, accounts), accounts[k], g);
        SumOfSnoc(ActiveAccountsOf(init, users', accounts'), accounts'[k], g);
      }
    }
  }

  /** A new user at the end of the table joins `get_users` at the end when it is active. */
  lemma AppendUserRow(order: seq<UserId>, users: map<UserId, User>, k: UserId, v: User)
    requires Covers(order, users) && k !in order
    ensures Covers(order + [k], users[k := v])
    ensures ActiveUsersOf(order + [k], users[k := v]) == ActiveUsersOf(order, users) + (if v.active then [v] else [])
  {
    var order' := order + [k];
    assert order'[..|order'| - 1] == order;
    ActiveUsersIgnoreOthers(order, users, k, v);
  }

  /** A new row at the end of a table comes last in `get_charities`. */
  lemma AppendAccountRow(order: seq<UserId>, accounts: map<UserId, Account>, k: UserId, a: Account)
    requires Covers(order, accounts) && k !in order
    ensures Covers(order + [k], accounts[k := a])
    ensures AccountsOf(order + [k], accounts[k := a]) == AccountsOf(order, accounts) + [a]
  {
    var order' := order + [k];
    assert order'[..|order'| - 1] == order;
    var rows := AccountsOf(order, accounts[k := a]);
    assert rows == AccountsOf(order, accounts);
  }

  /** A new user's account comes last in `get_salaries` when the user is active. */
  lemma AppendActiveAccountRow(order: seq<UserId>, users: map<UserId, User>, accounts: map<UserId, Account>,
                               k: UserId, v: User, a: Account)
    requires Covers(order, users) && Covers(order, accounts) && k !in order
    ensures Covers(order + [k], users[k := v]) && Covers(order + [k], accounts[k := a])
    ensures ActiveAccountsOf(order + [k], users[k := v], accounts[k := a])
         == ActiveAccountsOf(order, users, accounts) + (if v.active then [a] else [])
  {
    var order' := order + [k];
    assert order'[..|order'| - 1] == order;
    assert forall i | 0 <= i < |order| :: order[i] != k;
    ActiveAccountsAgree(order, users, accounts, users[k := v], accounts[k := a]);
  }

  // ---- calc.py: BET_20 totals of one user ----

  /** The reports `total_bet20_*_from` fetch: since `from_` up to `now`, or all of them. */
  function Bet20ReportsFrom(cfg: Config, rs: seq<Report>, user: UserId, from: Option<Instant>, now: Instant): (sel: seq<Report>)
    ensures forall r :: r in sel <==>
      && r in rs && r.active && r.user == user && r.partner == cfg.bet20PartnerId
      && (from.Some? ==> NotAfter(from.value, r.createdAt) && NotAfter(r.createdAt, now))
    ensures forall r :: multiset(sel)[r] == if r in sel then multiset(rs)[r] else 0
  {
    match from
    case Some(t) => UserReportsByPartnerAndInterval(rs, user, cfg.bet20PartnerId, t, now)
    case None => UserReportsByPartner(rs, user, cfg.bet20PartnerId)
  }

  /** `total_bet20_profit_from`. */
  function TotalBet20ProfitFrom(cfg: Config, rs: seq<Report>, user: UserId, from: Option<Instant>, now: Instant): real {
    SumOf(Bet20ReportsFrom(cfg, rs, user, from, now), ProfitOf)
  }

  /** `total_bet20_amount_from`. */
  function TotalBet20AmountFrom(cfg: Config, rs: seq<Report>, user: UserId, from: Option<Instant>, now: Instant): real {
    SumOf(Bet20ReportsFrom(cfg, rs, user, from, now), StakeOf)
  }

  /**
   * When every active BET_20 report of the user lies in `[from, now]`, the totals since
   * `from` equal the totals without a start date; with no such reports at all both are 0.
   */
  lemma Bet20TotalsFromCoveringStart(cfg: Config, rs: seq<Report>, user: UserId, from: Instant, now: Instant)
    requires forall r | r in rs && r.active && r.user == user && r.partner == cfg.bet20PartnerId ::
      NotAfter(from, r.createdAt) && NotAfter(r.createdAt, now)
    ensures TotalBet20ProfitFrom(cfg, rs, user, Some(from), now) == TotalBet20ProfitFrom(cfg, rs, user, None, now)
    ensures TotalBet20AmountFrom(cfg, rs, user, Some(from), now) == TotalBet20AmountFrom(cfg, rs, user, None, now)
    ensures (forall r | r in rs :: !r.active || r.user != user || r.partner != cfg.bet20PartnerId) ==>
      TotalBet20ProfitFrom(cfg, rs, user, None, now) == 0.0 && TotalBet20AmountFrom(cfg, rs, user, None, now) == 0.0
  {
    var f := ReportFilter(Some(user), Some(cfg.bet20PartnerId), None);
    CoveringWindowSelectsAll(rs, f, Window(from, now));
    var sel := Bet20ReportsFrom(cfg, rs, user, None, now);
    if forall r | r in rs :: !r.active || r.user != user || r.partner != cfg.bet20PartnerId {
      if sel != [] {
        assert sel[0] in sel;
      }
    }
  }

  // ---- admin handlers: totals over fetched reports ----

  /** `handle_charity_report_date`: `sum(r.amount * CHARITY_FRACTION for r in reports)`. */
  function CharityReport(rs: seq<Report>, charityFraction: real): real {
    if rs == [] then 0.0 else CharityReport(rs[..|rs| - 1], charityFraction) + rs[|rs| - 1].amount * charityFraction
  }

  /** The charity report is the charity fraction of the turnover of the same reports. */
  lemma {:induction false} CharityReportIsShareOfTurnover(rs: seq<Report>, charityFraction: real)
    ensures CharityReport(rs, charityFraction) == charityFraction * SumOf(rs, StakeOf)
  {
    if rs != [] {
      var init := rs[..|rs| - 1];
      CharityReportIsShareOfTurnover(init, charityFraction);
      calc {
        CharityReport(rs, charityFraction);
        charityFraction * SumOf(init, StakeOf) + rs[|rs| - 1].amount * charityFraction;
        charityFraction * (SumOf(init, StakeOf) + rs[|rs| - 1].amount);
      }
    }
  }

  /** The statistics handlers: turnover, profit and count of the fetched reports. */
  method Statistics(reports: seq<Report>) returns (turnover: real, profit: real, count: nat)
    ensures turnover == SumOf(reports, StakeOf)
    ensures profit == SumOf(reports, ProfitOf)
    ensures profit == SumOf(reports, RefundOf) - turnover
    ensures count == |reports|
  {
    turnover, profit := 0.0, 0.0;
    for i := 0 to |reports|
      invariant turnover == SumOf(reports[..i], StakeOf)
      invariant profit == SumOf(reports[..i], ProfitOf)
    {
      assert reports[..i + 1][..i] == reports[..i];
      turnover := turnover + reports[i].amount;
      profit := profit + reports[i].Profit();
    }
    assert reports[..|reports|] == reports;
    ProfitSumIsRefundsLessTurnover(reports);
    count := |reports|;
  }

  function Abs(x: real): real { if x < 0.0 then -x else x }

  /**
   * The business total of `handle_balances_form`: the common balance less the magnitudes
   * of the common misha balance and of both common salaries. It never exceeds the common
   * balance, and equals it exactly when the three are zero.
   */
  function BusinessTotal(balance: real, misha: real, salary: real, bet20Salary: real): (total: real)
    ensures total <= balance
    ensures total == balance <==> misha == 0.0 && salary == 0.0 && bet20Salary == 0.0
    ensures balance - total == Abs(misha) + Abs(salary) + Abs(bet20Salary)
  {
    balance - Abs(misha) - Abs(salary) - Abs(bet20Salary)
  }
}
