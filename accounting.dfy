/**
 * The ledger effect of a report on the records of its user, as `handle_create_report_confirm`
 * (accepting a report) and `handle_confirm_deletion` (deleting it) apply it. Both handlers
 * re-derive the effect from the report's stored fields, but by different rules, so deletion
 * undoes creation only for some ledgers; the lemmas below say exactly which.
 */
module Accounting {
  import opened Settings
  import opened Models
  import opened Queries
  import opened Calc

  /** A signed change to an account's current `amount` and lifetime `total_amount`. */
  datatype Change = Change(amount: real, total: real)

  const Untouched: Change := Change(0.0, 0.0)

  /** The change a report makes to each of the five records it can touch. */
  datatype Delta = Delta(balance: real, mishaBalance: real, salary: Change, bet20Salary: Change, charity: Change)

  /** The records of one user that a report can touch: the user and its three accounts. */
  datatype Books = Books(user: User, salary: Account, bet20Salary: Account, charity: Account)

  function Post(a: Account, c: Change): Account {
    a.(amount := a.amount + c.amount, totalAmount := a.totalAmount + c.total)
  }

  function Apply(b: Books, d: Delta): Books {
    Books(
      b.user.(balance := b.user.balance + d.balance, mishaBalance := b.user.mishaBalance + d.mishaBalance),
      Post(b.salary, d.salary),
      Post(b.bet20Salary, d.bet20Salary),
      Post(b.charity, d.charity))
  }

  predicate IsBet20(cfg: Config, r: Report) {
    r.partner == cfg.bet20PartnerId
  }

  /** The salary fraction before the erroneous rule: fixed for BET_20, the report's percent otherwise. */
  function Fraction(cfg: Config, r: Report): real {
    if IsBet20(cfg, r) then cfg.bet20SalaryFraction else r.salaryPercent as real / 100.0
  }

  /** The fine of an erroneous report, `profit * 3 * DEFAULT_SALARY_FRACTION`. */
  function Fine(cfg: Config, r: Report): real {
    r.Profit() * 3.0 * cfg.defaultSalaryFraction
  }

  /** Half the profit, for the misha partner only. */
  function MishaShare(cfg: Config, r: Report): real {
    if r.partner == cfg.mishaPartnerId then r.Profit() * 0.5 else 0.0
  }

  function CharityShare(cfg: Config, r: Report): real {
    r.amount * cfg.charityFraction
  }

  /**
   * Accepting a report. An erroneous report earns no commission; when it lost money the
   * fine goes to the Default salary's `amount` whatever the partner. Otherwise the chosen
   * account earns `profit * fraction` on both sums.
   */
  function CreateDelta(cfg: Config, r: Report): Delta {
    var profit := r.Profit();
    var accrual := profit * Fraction(cfg, r);
    var commission :=
      if r.erroneous then (if profit < 0.0 then Change(Fine(cfg, r), 0.0) else Untouched)
      else Change(accrual, accrual);
    var toBet20 := !r.erroneous && IsBet20(cfg, r);
    Delta(
      profit,
      MishaShare(cfg, r),
      if toBet20 then Untouched else commission,
      if toBet20 then commission else Untouched,
      Change(CharityShare(cfg, r), CharityShare(cfg, r)))
  }

  /**
   * Deleting a report. Only a non-BET_20 erroneous report is treated as erroneous: its
   * fraction becomes 0 and a loss gives the fine back to the Default salary. The account
   * of the report's partner then loses `amount * fraction` (the stake, not the profit)
   * on both sums.
   */
  function DeleteDelta(cfg: Config, r: Report): Delta {
    var profit := r.Profit();
    var forgiven := r.erroneous && !IsBet20(cfg, r);
    var fraction := if forgiven then 0.0 else Fraction(cfg, r);
    var refund := if forgiven && profit < 0.0 then Fine(cfg, r) else 0.0;
    var reversal := r.amount * fraction;
    Delta(
      -profit,
      -MishaShare(cfg, r),
      if IsBet20(cfg, r) then Untouched else Change(-refund - reversal, -reversal),
      if IsBet20(cfg, r) then Change(-reversal, -reversal) else Untouched,
      Change(-CharityShare(cfg, r), -CharityShare(cfg, r)))
  }

  // ---- accepting a report ----

  /**
   * Accepting a report moves the balance by the profit whether or not the report is
   * erroneous, the misha balance by half the profit for the misha partner only, and
   * both charity sums by the charity share of the stake whatever the profit; nothing
   * else of the user or the charity record changes.
   */
  lemma AcceptingMovesBalances(cfg: Config, r: Report, b: Books)
    ensures var a := Apply(b, CreateDelta(cfg, r));
      && a.user.balance == b.user.balance + (r.refundAmount - r.amount)
      && a.user.mishaBalance == b.user.mishaBalance
           + (if r.partner == cfg.mishaPartnerId then (r.refundAmount - r.amount) / 2.0 else 0.0)
      && a.user.(balance := b.user.balance, mishaBalance := b.user.mishaBalance) == b.user
      && a.charity.amount == b.charity.amount + r.amount * cfg.charityFraction
      && a.charity.totalAmount == b.charity.totalAmount + r.amount * cfg.charityFraction
      && a.charity.(amount := b.charity.amount, totalAmount := b.charity.totalAmount) == b.charity
  {
  }

  /**
   * A report that is not erroneous earns `profit * fraction` on both sums of one account:
   * Bet20Salary at the fixed fraction for the BET_20 partner, Salary at `percent / 100`
   * otherwise. The other account does not change.
   */
  lemma AcceptingAccruesCommission(cfg: Config, r: Report, b: Books)
    requires !r.erroneous
    ensures var a := Apply(b, CreateDelta(cfg, r));
      var gain := (r.refundAmount - r.amount) * (if r.partner == cfg.bet20PartnerId
                                                  then cfg.bet20SalaryFraction
                                                  else r.salaryPercent as real / 100.0);
      if r.partner == cfg.bet20PartnerId then
        && a.bet20Salary == b.bet20Salary.(amount := b.bet20Salary.amount + gain,
                                           totalAmount := b.bet20Salary.totalAmount + gain)
        && a.salary == b.salary
      else
        && a.salary == b.salary.(amount := b.salary.amount + gain, totalAmount := b.salary.totalAmount + gain)
        && a.bet20Salary == b.bet20Salary
  {
  }

  /**
   * An erroneous report earns nothing. When it lost money, the Default Salary's `amount`
   * (never its `total_amount`) takes the fine `profit * 3 * DEFAULT_SALARY_FRACTION`, even
   * for a BET_20 report, and with a non-negative fraction that is a decrease. Otherwise no
   * salary account changes.
   */
  lemma AcceptingErroneousFines(cfg: Config, r: Report, b: Books)
    requires r.erroneous
    ensures var a := Apply(b, CreateDelta(cfg, r));
      && a.bet20Salary == b.bet20Salary
      && (r.Profit() < 0.0 ==>
            && a.salary == b.salary.(amount := b.salary.amount + r.Profit() * 3.0 * cfg.defaultSalaryFraction)
            && (cfg.defaultSalaryFraction >= 0.0 ==> a.salary.amount <= b.salary.amount))
      && (r.Profit() >= 0.0 ==> a.salary == b.salary)
  {
  }

  // ---- deleting a report ----

  /**
   * Deleting a report takes the profit back off the balance, half of it off the misha
   * balance for the misha partner only, and the charity share of the stake off both
   * charity sums; nothing else of the user or the charity record changes.
   */
  lemma DeletingMovesBalances(cfg: Config, r: Report, b: Books)
    ensures var a := Apply(b, DeleteDelta(cfg, r));
      && a.user.balance == b.user.balance - (r.refundAmount - r.amount)
      && a.user.mishaBalance == b.user.mishaBalance
           - (if r.partner == cfg.mishaPartnerId then (r.refundAmount - r.amount) / 2.0 else 0.0)
      && a.user.(balance := b.user.balance, mishaBalance := b.user.mishaBalance) == b.user
      && a.charity.amount == b.charity.amount - r.amount * cfg.charityFraction
      && a.charity.totalAmount == b.charity.totalAmount - r.amount * cfg.charityFraction
      && a.charity.(amount := b.charity.amount, totalAmount := b.charity.totalAmount) == b.charity
  {
  }

  /**
   * Deleting a report takes `amount * fraction` off both sums of its partner's account:
   * Bet20Salary at the fixed fraction for BET_20, erroneous or not; Salary at `percent / 100`
   * for any other report that is not erroneous. An erroneous non-BET_20 report takes
   * nothing off, but when it lost money its fine is taken back off Salary's `amount`
   * (so `amount` rises by the size of the fine) and `total_amount` stays.
   */
  lemma DeletingReversesCommission(cfg: Config, r: Report, b: Books)
    ensures var a := Apply(b, DeleteDelta(cfg, r));
      if r.partner == cfg.bet20PartnerId then
        var loss := r.amount * cfg.bet20SalaryFraction;
        && a.bet20Salary == b.bet20Salary.(amount := b.bet20Salary.amount - loss,
                                           totalAmount := b.bet20Salary.totalAmount - loss)
        && a.salary == b.salary
      else if r.erroneous then
        && a.salary == b.salary.(amount := b.salary.amount - (if r.Profit() < 0.0 then Fine(cfg, r) else 0.0))
        && a.bet20Salary == b.bet20Salary
      else
        var loss := r.amount * (r.salaryPercent as real / 100.0);
        && a.salary == b.salary.(amount := b.salary.amount - loss, totalAmount := b.salary.totalAmount - loss)
        && a.bet20Salary == b.bet20Salary
  {
  }

  // ---- accepting and then deleting the same report ----

  function RoundTrip(cfg: Config, r: Report, b: Books): Books {
    Apply(Apply(b, CreateDelta(cfg, r)), DeleteDelta(cfg, r))
  }

  /** The user record (balance and misha balance) and the charity record always come back exactly. */
  lemma RoundTripRestoresBalancesAndCharity(cfg: Config, r: Report, b: Books)
    ensures RoundTrip(cfg, r, b).user == b.user
    ensures RoundTrip(cfg, r, b).charity == b.charity
  {
  }

  /**
   * What a create/delete pair leaves behind on the salary accounts: for a report that is
   * not erroneous, `profit * fraction - amount * fraction` on both sums of its account;
   * for an erroneous BET_20 report, the fine on Salary's `amount` and minus
   * `amount * BET_20_SALARY_FRACTION` on both sums of Bet20Salary; for an erroneous
   * report of another partner, nothing.
   */
  lemma RoundTripCommissionResidue(cfg: Config, r: Report, b: Books)
    ensures var rt := RoundTrip(cfg, r, b);
      var f := Fraction(cfg, r);
      var left := r.Profit() * f - r.amount * f;
      if !r.erroneous && IsBet20(cfg, r) then
        && rt.bet20Salary == b.bet20Salary.(amount := b.bet20Salary.amount + left,
                                            totalAmount := b.bet20Salary.totalAmount + left)
        && rt.salary == b.salary
      else if !r.erroneous then
        && rt.salary == b.salary.(amount := b.salary.amount + left, totalAmount := b.salary.totalAmount + left)
        && rt.bet20Salary == b.bet20Salary
      else if IsBet20(cfg, r) then
        var loss := r.amount * cfg.bet20SalaryFraction;
        && rt.salary == b.salary.(amount := b.salary.amount + (if r.Profit() < 0.0 then Fine(cfg, r) else 0.0))
        && rt.bet20Salary == b.bet20Salary.(amount := b.bet20Salary.amount - loss,
                                            totalAmount := b.bet20Salary.totalAmount - loss)
      else
        rt == b
  {
  }

  /** The reports for which deletion undoes acceptance on every ledger. */
  predicate RestoredByDeletion(cfg: Config, r: Report) {
    if !r.erroneous then r.Profit() * Fraction(cfg, r) == r.amount * Fraction(cfg, r)
    else if IsBet20(cfg, r) then
      r.amount * cfg.bet20SalaryFraction == 0.0 && (r.Profit() >= 0.0 || Fine(cfg, r) == 0.0)
    else true
  }

  /** Deleting an accepted report restores all of its user's books exactly when `RestoredByDeletion` holds. */
  lemma RoundTripExactIff(cfg: Config, r: Report, b: Books)
    ensures RoundTrip(cfg, r, b) == b <==> RestoredByDeletion(cfg, r)
  {
    RoundTripCommissionResidue(cfg, r, b);
    RoundTripRestoresBalancesAndCharity(cfg, r, b);
  }

  /**
   * For a report that is not erroneous the accrual is reversed exactly when the refund is
   * twice the stake (then profit equals stake) or the fraction is zero.
   */
  lemma AccrualReversedExactlyWhen(cfg: Config, r: Report)
    requires !r.erroneous
    ensures RestoredByDeletion(cfg, r) <==> r.refundAmount == 2.0 * r.amount || Fraction(cfg, r) == 0.0
  {
    var f := Fraction(cfg, r);
    assert r.Profit() * f - r.amount * f == (r.Profit() - r.amount) * f;
    if f != 0.0 && r.Profit() * f == r.amount * f {
      assert (r.Profit() - r.amount) * f / f == r.Profit() - r.amount;
    }
  }

  // ---- a run of accepted reports ----

  /** The books after accepting `rs` in order. */
  function AcceptAll(cfg: Config, rs: seq<Report>, b: Books): Books {
    if rs == [] then b else Apply(AcceptAll(cfg, rs[..|rs| - 1], b), CreateDelta(cfg, rs[|rs| - 1]))
  }

  /**
   * After a run of accepted reports the balance has moved by their summed profit and both
   * charity sums by the charity report of the same reports, which is the charity fraction
   * of their turnover.
   */
  lemma {:induction false} AcceptAllAccumulates(cfg: Config, rs: seq<Report>, b: Books)
    ensures AcceptAll(cfg, rs, b).user.balance == b.user.balance + SumOf(rs, ProfitOf)
    ensures AcceptAll(cfg, rs, b).charity.totalAmount == b.charity.totalAmount + CharityReport(rs, cfg.charityFraction)
    ensures AcceptAll(cfg, rs, b).charity.amount == b.charity.amount + CharityReport(rs, cfg.charityFraction)
    ensures AcceptAll(cfg, rs, b).charity.totalAmount == b.charity.totalAmount + cfg.charityFraction * SumOf(rs, StakeOf)
  {
    if rs != [] {
      var init, last := rs[..|rs| - 1], rs[|rs| - 1];
      var d := CreateDelta(cfg, last);
      AcceptAllAccumulates(cfg, init, b);
      assert AcceptAll(cfg, rs, b) == Apply(AcceptAll(cfg, init, b), d);
      assert d.balance == last.Profit() && d.charity == Change(CharityShare(cfg, last), CharityShare(cfg, last));
      assert SumOf(rs, ProfitOf) == SumOf(init, ProfitOf) + last.Profit();
      assert CharityReport(rs, cfg.charityFraction) == CharityReport(init, cfg.charityFraction) + CharityShare(cfg, last);
    }
    CharityReportIsShareOfTurnover(rs, cfg.charityFraction);
  }

  // ---- the effect of one user's change on the rollups ----

  /** The tables in which the books of every user in `order` can be found. */
  predicate Tabled(order: seq<UserId>, users: map<UserId, User>, salaries: map<UserId, Account>,
                   bet20Salaries: map<UserId, Account>, charities: map<UserId, Account>) {
    Covers(order, users) && Covers(order, salaries) && Covers(order, bet20Salaries) && Covers(order, charities)
  }

  /**
   * Changing one user's books by a delta moves the balance and misha rollups, which range
   * over active users, by the delta's part when the user is active and not otherwise.
   */
  lemma DeltaMovesBalanceRollups(order: seq<UserId>, users: map<UserId, User>, salaries: map<UserId, Account>,
                                 bet20Salaries: map<UserId, Account>, charities: map<UserId, Account>, uid: UserId, d: Delta)
    requires Tabled(order, users, salaries, bet20Salaries, charities) && NoDuplicates(order) && uid in order
    ensures var a := Apply(Books(users[uid], salaries[uid], bet20Salaries[uid], charities[uid]), d);
      var on := users[uid].active;
      && CommonBalance(order, users[uid := a.user]) == CommonBalance(order, users) + (if on then d.balance else 0.0)
      && CommonMishaBalance(order, users[uid := a.user]) == CommonMishaBalance(order, users) + (if on then d.mishaBalance else 0.0)
  {
    var a := Apply(Books(users[uid], salaries[uid], bet20Salaries[uid], charities[uid]), d);
    SumActiveUsersUpdate(order, users, uid, a.user, BalanceOf);
    SumActiveUsersUpdate(order, users, uid, a.user, MishaBalanceOf);
  }

  /** Replacing one user's record and account, activity kept, moves a salary rollup by the account's change. */
  lemma AccountChangeMovesSalaryRollup(order: seq<UserId>, users: map<UserId, User>, accounts: map<UserId, Account>,
                                       uid: UserId, v: User, acc: Account)
    requires Covers(order, users) && Covers(order, accounts) && NoDuplicates(order) && uid in order
    requires v.active == users[uid].active
    ensures CommonSalary(order, users[uid := v], accounts[uid := acc])
         == CommonSalary(order, users, accounts) + (if users[uid].active then acc.amount - accounts[uid].amount else 0.0)
  {
    var users' := users[uid := v];
    var accounts' := accounts[uid := acc];
    assert forall i | 0 <= i < |order| :: users'[order[i]].active == users[order[i]].active;
    ActiveAccountsAgree(order, users', accounts', users, accounts');
    SumActiveAccountsUpdate(order, users, accounts, uid, acc, AmountOf);
  }

  /** The same for the two salary rollups, which range over the accounts of active users. */
  lemma DeltaMovesSalaryRollups(order: seq<UserId>, users: map<UserId, User>, salaries: map<UserId, Account>,
                                bet20Salaries: map<UserId, Account>, charities: map<UserId, Account>, uid: UserId, d: Delta)
    requires Tabled(order, users, salaries, bet20Salaries, charities) && NoDuplicates(order) && uid in order
    ensures var a := Apply(Books(users[uid], salaries[uid], bet20Salaries[uid], charities[uid]), d);
      var on := users[uid].active;
      && CommonSalary(order, users[uid := a.user], salaries[uid := a.salary])
           == CommonSalary(order, users, salaries) + (if on then d.salary.amount else 0.0)
      && CommonSalary(order, users[uid := a.user], bet20Salaries[uid := a.bet20Salary])
           == CommonSalary(order, users, bet20Salaries) + (if on then d.bet20Salary.amount else 0.0)
  {
    var a := Apply(Books(users[uid], salaries[uid], bet20Salaries[uid], charities[uid]), d);
    AccountChangeMovesSalaryRollup(order, users, salaries, uid, a.user, a.salary);
    AccountChangeMovesSalaryRollup(order, users, bet20Salaries, uid, a.user, a.bet20Salary);
  }

  /** The charity rollups range over every record, so they always move by the delta's part. */
  lemma DeltaMovesCharityRollups(order: seq<UserId>, charities: map<UserId, Account>, uid: UserId, d: Delta, b: Books)
    requires Covers(order, charities) && NoDuplicates(order) && uid in order && b.charity == charities[uid]
    ensures var a := Apply(b, d);
      && CommonCharity(order, charities[uid := a.charity]) == CommonCharity(order, charities) + d.charity.amount
      && CommonTotalCharity(order, charities[uid := a.charity]) == CommonTotalCharity(order, charities) + d.charity.total
  {
    var a := Apply(b, d);
    SumAccountsUpdate(order, charities, uid, a.charity, AmountOf);
    SumAccountsUpdate(order, charities, uid, a.charity, TotalAmountOf);
  }

  /**
   * Taking an account's amount off its user's balance (the account's `amount` to 0, the
   * balance down by that amount) leaves the common balance less that common salary as
   * it was, whether the user is active or not.
   */
  lemma PayOutKeepsNet(order: seq<UserId>, users: map<UserId, User>, accounts: map<UserId, Account>,
                       uid: UserId, paid: Account)
    requires Covers(order, users) && Covers(order, accounts) && NoDuplicates(order) && uid in order
    requires paid.amount == 0.0
    ensures var u := users[uid];
      var users' := users[uid := u.(balance := u.balance - accounts[uid].amount)];
      && Covers(order, users') && Covers(order, accounts[uid := paid])
      && CommonBalance(order, users') - CommonSalary(order, users', accounts[uid := paid])
         == CommonBalance(order, users) - CommonSalary(order, users, accounts)
  {
    var u := users[uid];
    var v := u.(balance := u.balance - accounts[uid].amount);
    SumActiveUsersUpdate(order, users, uid, v, BalanceOf);
    AccountChangeMovesSalaryRollup(order, users, accounts, uid, v, paid);
  }
}

