/**
 * The read queries of `src/services/database/api.py`: which records each one returns.
 * Tables keyed by user id are a map plus `order`, the order in which the rows were
 * inserted; reports, operations and partners are sequences in insertion order.
 */
module Queries {
  import opened Wrappers
  import opened Models

  /** An inclusive date interval, as `DateInterval` and the `>= start`, `<= end` filters use it. */
  datatype Window = Window(start: Instant, end: Instant)

  predicate InWindow(t: Instant, w: Window) {
    NotAfter(w.start, t) && NotAfter(t, w.end)
  }

  /** The conjunction every report query builds: active, and the optional user, partner and interval. */
  datatype ReportFilter = ReportFilter(user: Option<UserId>, partner: Option<PartnerId>, window: Option<Window>)

  predicate Selects(f: ReportFilter, r: Report) {
    && r.active
    && (f.user.Some? ==> r.user == f.user.value)
    && (f.partner.Some? ==> r.partner == f.partner.value)
    && (f.window.Some? ==> InWindow(r.createdAt, f.window.value))
  }

  /**
   * `Report.filter(and_(...))`: the reports the filter selects, in table order. A row the
   * filter selects comes back as often as it occurs in the table, any other row never.
   */
  function SelectReports(rs: seq<Report>, f: ReportFilter): (sel: seq<Report>)
    ensures |sel| <= |rs|
    ensures forall r :: r in sel <==> r in rs && Selects(f, r)
    ensures forall r :: multiset(sel)[r] == if Selects(f, r) then multiset(rs)[r] else 0
  {
    if rs == [] then []
    else
      var init := rs[..|rs| - 1];
      var last := rs[|rs| - 1];
      assert rs == init + [last];
      var sel := SelectReports(init, f);
      if Selects(f, last) then sel + [last] else sel
  }

  /** `get_reports_by_interval`. */
  function ReportsByInterval(rs: seq<Report>, start: Instant, end: Instant): (sel: seq<Report>)
    ensures forall r :: r in sel <==>
      r in rs && r.active && NotAfter(start, r.createdAt) && NotAfter(r.createdAt, end)
    ensures forall r :: multiset(sel)[r] == if r in sel then multiset(rs)[r] else 0
  {
    SelectReports(rs, ReportFilter(None, None, Some(Window(start, end))))
  }

  /** `get_user_reports_by_interval`. */
  function UserReportsByInterval(rs: seq<Report>, user: UserId, start: Instant, end: Instant): (sel: seq<Report>)
    ensures forall r :: r in sel <==>
      r in rs && r.active && r.user == user && NotAfter(start, r.createdAt) && NotAfter(r.createdAt, end)
    ensures forall r :: multiset(sel)[r] == if r in sel then multiset(rs)[r] else 0
  {
    SelectReports(rs, ReportFilter(Some(user), None, Some(Window(start, end))))
  }

  /** `get_partner_reports_by_interval`. */
  function PartnerReportsByInterval(rs: seq<Report>, partner: PartnerId, start: Instant, end: Instant): (sel: seq<Report>)
    ensures forall r :: r in sel <==>
      r in rs && r.active && r.partner == partner && NotAfter(start, r.createdAt) && NotAfter(r.createdAt, end)
    ensures forall r :: multiset(sel)[r] == if r in sel then multiset(rs)[r] else 0
  {
    SelectReports(rs, ReportFilter(None, Some(partner), Some(Window(start, end))))
  }

  /** `get_user_reports_by_partner_and_interval`. */
  function UserReportsByPartnerAndInterval(rs: seq<Report>, user: UserId, partner: PartnerId,
                                           start: Instant, end: Instant): (sel: seq<Report>)
    ensures forall r :: r in sel <==>
      r in rs && r.active && r.user == user && r.partner == partner
      && NotAfter(start, r.createdAt) && NotAfter(r.createdAt, end)
    ensures forall r :: multiset(sel)[r] == if r in sel then multiset(rs)[r] else 0
  {
    SelectReports(rs, ReportFilter(Some(user), Some(partner), Some(Window(start, end))))
  }

  /** `get_user_reports_by_partner`. */
  function UserReportsByPartner(rs: seq<Report>, user: UserId, partner: PartnerId): (sel: seq<Report>)
    ensures forall r :: r in sel <==> r in rs && r.active && r.user == user && r.partner == partner
    ensures forall r :: multiset(sel)[r] == if r in sel then multiset(rs)[r] else 0
  {
    SelectReports(rs, ReportFilter(Some(user), Some(partner), None))
  }

  /** `get_user_reports`. */
  function UserReports(rs: seq<Report>, user: UserId): (sel: seq<Report>)
    ensures forall r :: r in sel <==> r in rs && r.active && r.user == user
    ensures forall r :: multiset(sel)[r] == if r.active && r.user == user then multiset(rs)[r] else 0
  {
    SelectReports(rs, ReportFilter(Some(user), None, None))
  }

  /**
   * A window that contains every report the rest of the filter selects changes nothing:
   * the windowed query returns exactly the unwindowed one.
   */
  lemma {:induction false} CoveringWindowSelectsAll(rs: seq<Report>, f: ReportFilter, w: Window)
    requires forall r | r in rs && Selects(f.(window := None), r) :: InWindow(r.createdAt, w)
    ensures SelectReports(rs, f.(window := Some(w))) == SelectReports(rs, f.(window := None))
  {
    if rs != [] {
      var init := rs[..|rs| - 1];
      assert rs == init + [rs[|rs| - 1]];
      CoveringWindowSelectsAll(init, f, w);
    }
  }

  /** `get_operations_by_interval`: no `active` condition, operations have none. */
  function OperationsByInterval(ops: seq<Operation>, start: Instant, end: Instant): (sel: seq<Operation>)
    ensures |sel| <= |ops|
    ensures forall o :: o in sel <==> o in ops && NotAfter(start, o.createdAt) && NotAfter(o.createdAt, end)
    ensures forall o :: multiset(sel)[o] == if o in sel then multiset(ops)[o] else 0
  {
    if ops == [] then []
    else
      var init := ops[..|ops| - 1];
      var last := ops[|ops| - 1];
      assert ops == init + [last];
      var sel := OperationsByInterval(init, start, end);
      if NotAfter(start, last.createdAt) && NotAfter(last.createdAt, end) then sel + [last] else sel
  }

  /** `get_partners`. */
  function ActivePartners(ps: seq<Partner>): (sel: seq<Partner>)
    ensures |sel| <= |ps|
    ensures forall p :: p in sel <==> p in ps && p.active
    ensures forall p :: multiset(sel)[p] == if p.active then multiset(ps)[p] else 0
  {
    if ps == [] then []
    else
      var init := ps[..|ps| - 1];
      var last := ps[|ps| - 1];
      assert ps == init + [last];
      var sel := ActivePartners(init);
      if last.active then sel + [last] else sel
  }

  predicate NoDuplicates<T(==)>(s: seq<T>) {
    forall i, j | 0 <= i < j < |s| :: s[i] != s[j]
  }

  /** Every key of `order` has a row in `m`. */
  predicate Covers<V>(order: seq<UserId>, m: map<UserId, V>) {
    forall i | 0 <= i < |order| :: order[i] in m
  }

  /** `get_users`: the active users, in table order. */
  function ActiveUsersOf(order: seq<UserId>, users: map<UserId, User>): (us: seq<User>)
    requires Covers(order, users)
    ensures |us| <= |order|
    ensures forall u | u in us :: u.active
    ensures forall i | 0 <= i < |order| && users[order[i]].active :: users[order[i]] in us
  {
    if order == [] then []
    else
      var us := ActiveUsersOf(order[..|order| - 1], users);
      var u := users[order[|order| - 1]];
      if u.active then us + [u] else us
  }

  /** `get_charities`: every record, whatever the state of its user. */
  function AccountsOf(order: seq<UserId>, accounts: map<UserId, Account>): (rows: seq<Account>)
    requires Covers(order, accounts)
    ensures |rows| == |order|
    ensures forall i | 0 <= i < |order| :: rows[i] == accounts[order[i]]
  {
    if order == [] then []
    else AccountsOf(order[..|order| - 1], accounts) + [accounts[order[|order| - 1]]]
  }

  /** `get_salaries`, `get_bet20_salaries`: the accounts joined with an active user. */
  function ActiveAccountsOf(order: seq<UserId>, users: map<UserId, User>, accounts: map<UserId, Account>): (rows: seq<Account>)
    requires Covers(order, users) && Covers(order, accounts)
    ensures |rows| <= |order|
    ensures forall i | 0 <= i < |order| && users[order[i]].active :: accounts[order[i]] in rows
  {
    if order == [] then []
    else
      var rows := ActiveAccountsOf(order[..|order| - 1], users, accounts);
      var k := order[|order| - 1];
      if users[k].active then rows + [accounts[k]] else rows
  }

  /**
   * The positions of `order` whose user is active, in increasing order: exactly the
   * rows `get_users` keeps.
   */
  function ActiveIndices(order: seq<UserId>, users: map<UserId, User>): (ix: seq<int>)
    requires Covers(order, users)
    ensures forall j | 0 <= j < |ix| :: 0 <= ix[j] < |order| && users[order[ix[j]]].active
    ensures forall j, k | 0 <= j < k < |ix| :: ix[j] < ix[k]
    ensures forall i | 0 <= i < |order| && users[order[i]].active :: i in ix
  {
    if order == [] then []
    else
      var init := order[..|order| - 1];
      assert forall i | 0 <= i < |init| :: init[i] == order[i];
      var ix := ActiveIndices(init, users);
      if users[order[|order| - 1]].active then ix + [|order| - 1] else ix
  }

  /**
   * `get_users` is exactly the subsequence of the user rows at the active positions:
   * one entry per active row, in table order, and nothing else.
   */
  lemma {:induction false} ActiveUsersAtActiveIndices(order: seq<UserId>, users: map<UserId, User>)
    requires Covers(order, users)
    ensures var us := ActiveUsersOf(order, users);
      var ix := ActiveIndices(order, users);
      |us| == |ix| && forall j | 0 <= j < |ix| :: us[j] == users[order[ix[j]]]
  {
    if order != [] {
      var init, k := order[..|order| - 1], order[|order| - 1];
      ActiveUsersAtActiveIndices(init, users);
      var ix, us := ActiveIndices(init, users), ActiveUsersOf(init, users);
      if users[k].active {
        var ix', us' := ix + [|order| - 1], us + [users[k]];
        assert ActiveIndices(order, users) == ix';
        assert ActiveUsersOf(order, users) == us';
        forall j | 0 <= j < |ix'|
          ensures us'[j] == users[order[ix'[j]]]
        {
          if j < |ix| {
            assert ix'[j] == ix[j] && us'[j] == us[j] && order[ix[j]] == init[ix[j]];
          }
        }
      } else {
        assert ActiveIndices(order, users) == ix;
        assert ActiveUsersOf(order, users) == us;
        forall j | 0 <= j < |ix|
          ensures us[j] == users[order[ix[j]]]
        {
          assert order[ix[j]] == init[ix[j]];
        }
      }
    }
  }

  /** `get_salaries` is exactly the accounts at the same active positions, in table order. */
  lemma {:induction false} ActiveAccountsAtActiveIndices(order: seq<UserId>, users: map<UserId, User>,
                                                         accounts: map<UserId, Account>)
    requires Covers(order, users) && Covers(order, accounts)
    ensures var rows := ActiveAccountsOf(order, users, accounts);
      var ix := ActiveIndices(order, users);
      |rows| == |ix| && forall j | 0 <= j < |ix| :: rows[j] == accounts[order[ix[j]]]
  {
    if order != [] {
      var init, k := order[..|order| - 1], order[|order| - 1];
      ActiveAccountsAtActiveIndices(init, users, accounts);
      var ix, rows := ActiveIndices(init, users), ActiveAccountsOf(init, users, accounts);
      if users[k].active {
        var ix', rows' := ix + [|order| - 1], rows + [accounts[k]];
        assert ActiveIndices(order, users) == ix';
        assert ActiveAccountsOf(order, users, accounts) == rows';
        forall j | 0 <= j < |ix'|
          ensures rows'[j] == accounts[order[ix'[j]]]
        {
          if j < |ix| {
            assert ix'[j] == ix[j] && rows'[j] == rows[j] && order[ix[j]] == init[ix[j]];
          }
        }
      } else {
        assert ActiveIndices(order, users) == ix;
        assert ActiveAccountsOf(order, users, accounts) == rows;
        forall j | 0 <= j < |ix|
          ensures rows[j] == accounts[order[ix[j]]]
        {
          assert order[ix[j]] == init[ix[j]];
        }
      }
    }
  }

  /** Every user `get_users` lists is the row of some user of the table. */
  lemma {:induction false} ActiveUsersAreRows(order: seq<UserId>, users: map<UserId, User>, u: User)
    requires Covers(order, users) && u in ActiveUsersOf(order, users)
    ensures exists i | 0 <= i < |order| :: users[order[i]] == u
  {
    var init := order[..|order| - 1];
    var k := order[|order| - 1];
    if u in ActiveUsersOf(init, users) {
      ActiveUsersAreRows(init, users, u);
      var i :| 0 <= i < |init| && users[init[i]] == u;
      assert order[i] == init[i];
    } else {
      assert users[order[|order| - 1]] == u;
    }
  }

  /** Every account `get_salaries` lists belongs to an active user of the table. */
  lemma {:induction false} ActiveAccountsAreRows(order: seq<UserId>, users: map<UserId, User>,
                                                 accounts: map<UserId, Account>, a: Account)
    requires Covers(order, users) && Covers(order, accounts) && a in ActiveAccountsOf(order, users, accounts)
    ensures exists i | 0 <= i < |order| :: users[order[i]].active && accounts[order[i]] == a
  {
    var init := order[..|order| - 1];
    var k := order[|order| - 1];
    if a in ActiveAccountsOf(init, users, accounts) {
      ActiveAccountsAreRows(init, users, accounts, a);
      var i :| 0 <= i < |init| && users[init[i]].active && accounts[init[i]] == a;
      assert order[i] == init[i];
    } else {
      assert users[order[|order| - 1]].active && accounts[order[|order| - 1]] == a;
    }
  }
}
