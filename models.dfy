/**
 * The database records of the bot (the SQLAlchemy models), as values. Every monetary
 * field is held in euro, as `real`: the rounding to cents that the source applies when it
 * converts or sums is not modelled.
 */
module Models {
  import opened Wrappers

  type UserId = int
  type PartnerId = int
  type CurrencyId = int

  const SecondsPerDay: int := 86400

  /**
   * A point in time: a day ordinal and the whole second within that day. The fraction of
   * a second that Python's datetimes carry is not represented.
   */
  datatype Instant = Instant(day: int, second: int)

  function TimeOfDay(hour: int, minute: int, second: int): int {
    hour * 3600 + minute * 60 + second
  }

  /** Seconds since the start of day 0: the order in which the database compares datetimes. */
  function Stamp(t: Instant): int {
    t.day * 86400 + t.second
  }

  predicate NotAfter(a: Instant, b: Instant) {
    Stamp(a) <= Stamp(b)
  }

  /** Reference data; `exchangeRate` converts this currency to euro. */
  datatype Currency = Currency(name: string, symbol: string, exchangeRate: real) {

    /** `convert_to_eur`, without the rounding to two decimals. */
    function ToEur(amount: real): real {
      amount * exchangeRate
    }

    /** `convert_from_eur`, without the rounding; Python raises on a zero rate. */
    function FromEur(amount: real): real
      requires exchangeRate != 0.0
    {
      amount / exchangeRate
    }
  }

  /** Without rounding the two conversions are inverse to each other. */
  lemma ConversionRoundTrip(c: Currency, x: real)
    requires c.exchangeRate != 0.0
    ensures c.FromEur(c.ToEur(x)) == x
    ensures c.ToEur(c.FromEur(x)) == x
  {
  }

  /**
   * Converting leaves an amount unchanged exactly when the rate is 1 or the amount is 0;
   * in every other case a member's operation is recorded with a different amount from
   * the one added to their balance.
   */
  lemma ConversionFixesExactly(c: Currency, x: real)
    ensures c.ToEur(x) == x <==> c.exchangeRate == 1.0 || x == 0.0
  {
    if c.ToEur(x) == x && x != 0.0 {
      var d := c.exchangeRate - 1.0;
      assert x * d == 0.0;
      assert d == (x * d) / x;
    }
  }

  /** The currency every new member starts with (`create_user` sets `currency=1`). */
  const DefaultCurrency: CurrencyId := 1

  datatype User = User(
    id: UserId,
    username: string,
    balance: real,
    mishaBalance: real,
    currency: CurrencyId,
    isAdmin: bool,
    createdAt: Instant,
    inWork: bool,
    active: bool)

  /** `create_user` with the column defaults of the `User` model. */
  function NewUser(id: UserId, username: string, now: Instant): User {
    User(id, username, 0.0, 0.0, DefaultCurrency, false, now, true, true)
  }

  /**
   * `User.currency_balance`: the stored euro balance passed through `convert_to_eur`
   * (not `convert_from_eur`), so it is the balance scaled by the rate.
   */
  function CurrencyBalance(u: User, c: Currency): (shown: real)
    ensures c.exchangeRate != 0.0 ==> c.FromEur(shown) == u.balance
    ensures c.exchangeRate == 1.0 ==> shown == u.balance
  {
    c.ToEur(u.balance)
  }

  /** `User.currency_misha_balance`, converted the same way. */
  function CurrencyMishaBalance(u: User, c: Currency): (shown: real)
    ensures c.exchangeRate != 0.0 ==> c.FromEur(shown) == u.mishaBalance
    ensures c.exchangeRate == 1.0 ==> shown == u.mishaBalance
  {
    c.ToEur(u.mishaBalance)
  }

  datatype Partner = Partner(id: PartnerId, name: string, active: bool)

  datatype Report = Report(
    user: UserId,
    partner: PartnerId,
    photo: string,
    amount: real,
    refundAmount: real,
    salaryPercent: int,
    createdAt: Instant,
    erroneous: bool,
    active: bool)
  {
    function Profit(): real {
      refundAmount - amount
    }
  }

  /** `create_report`: the `erroneous` flag is given, `active` takes its default. */
  function NewReport(user: UserId, photo: string, amount: real, refundAmount: real,
                     salaryPercent: int, partner: PartnerId, erroneous: bool, now: Instant): Report
  {
    Report(user, partner, photo, amount, refundAmount, salaryPercent, now, erroneous, true)
  }

  datatype Operation = Operation(user: UserId, amount: real, reason: string, createdAt: Instant)

  /** The shape shared by the `Salary`, `Bet20Salary` and `Charity` records. */
  datatype Account = Account(user: UserId, amount: real, totalAmount: real, lastDebitingAt: Option<Instant>)

  /** `create_salary`, `create_bet20_salary`, `create_charity`. */
  function NewAccount(user: UserId): Account {
    Account(user, 0.0, 0.0, None)
  }

  /** Which commission account an administrator works on (`enums.SalaryPartner`). */
  datatype SalaryKind = Default | Bet20
}
