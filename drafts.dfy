/**
 * The conversation that fills in a report before it is confirmed: the FSM data that
 * `src/handlers/users/messages.py` and `src/handlers/users/callback_query.py` store with
 * `state.update_data`, one handler per state. A handler only runs in its own state, so
 * each transition below requires that step. Python's `float(...)` is the parameter
 * `parse`; `None` stands for the `ValueError` that makes `is_float` false.
 */
module Drafts {
  import opened Wrappers
  import opened Settings
  import opened Models
  import opened Validate

  datatype Step = Idle | Photo | Amount | RefundAmount | ChoosePartner | SalaryPercent | Confirm

  /** The stored FSM data; a key that was never stored is `None`. */
  datatype Draft = Draft(
    step: Step,
    erroneous: Option<bool>,
    photo: Option<string>,
    currency: Option<CurrencyId>,
    amount: Option<real>,
    refundAmount: Option<real>,
    partner: Option<PartnerId>,
    salaryPercent: Option<int>)

  /** `reset_state(with_data=True)`: no state and no data. */
  const Empty: Draft := Draft(Idle, None, None, None, None, None, None, None)

  /**
   * The two "create report" buttons of the start form: the erroneous flag is stored and
   * the photo is asked for. Other keys of the data are kept as they are.
   */
  function StartReport(d: Draft, erroneous: bool): (r: Draft)
    ensures r.step == Photo && r.erroneous == Some(erroneous)
    ensures r.(step := d.step, erroneous := d.erroneous) == d
  {
    d.(step := Photo, erroneous := Some(erroneous))
  }

  /** A photo message: its file id and the user's currency are stored. */
  function EnterPhoto(d: Draft, photoId: string, userCurrency: CurrencyId): (r: Draft)
    requires d.step == Photo
    ensures r.step == Amount && r.photo == Some(photoId) && r.currency == Some(userCurrency)
    ensures r.(step := d.step, photo := d.photo, currency := d.currency) == d
  {
    d.(step := Amount, photo := Some(photoId), currency := Some(userCurrency))
  }

  /** The stake: text that is not a float is refused and nothing changes. */
  function EnterStake(d: Draft, text: string, parse: string -> Option<real>): (r: Draft)
    requires d.step == Amount
    ensures parse(text).None? <==> r == d
    ensures parse(text).Some? ==>
      r.step == RefundAmount && r.amount == parse(text) && r.(step := d.step, amount := d.amount) == d
  {
    match parse(text)
    case None => d
    case Some(v) => d.(step := RefundAmount, amount := Some(v))
  }

  /** The refund: refused like the stake when it is not a float. */
  function EnterRefund(d: Draft, text: string, parse: string -> Option<real>): (r: Draft)
    requires d.step == RefundAmount
    ensures parse(text).None? <==> r == d
    ensures parse(text).Some? ==>
      r.step == ChoosePartner && r.refundAmount == parse(text)
      && r.(step := d.step, refundAmount := d.refundAmount) == d
  {
    match parse(text)
    case None => d
    case Some(v) => d.(step := ChoosePartner, refundAmount := Some(v))
  }

  /**
   * Choosing the partner. Any partner but BET_20 goes on to ask for the salary percent;
   * BET_20 skips that question, stores a percent of 0 and goes straight to confirmation.
   */
  function SelectPartner(cfg: Config, d: Draft, partnerId: PartnerId): (r: Draft)
    requires d.step == ChoosePartner
    ensures r.partner == Some(partnerId)
    ensures r.step == Confirm <==> partnerId == cfg.bet20PartnerId
    ensures partnerId == cfg.bet20PartnerId ==> r.salaryPercent == Some(0)
    ensures partnerId != cfg.bet20PartnerId ==> r.step == SalaryPercent && r.salaryPercent == d.salaryPercent
    ensures r.(step := d.step, partner := d.partner, salaryPercent := d.salaryPercent) == d
  {
    if partnerId != cfg.bet20PartnerId then d.(step := SalaryPercent, partner := Some(partnerId))
    else d.(step := Confirm, partner := Some(partnerId), salaryPercent := Some(0))
  }

  /** The salary percent: refused unless the salary-percent guard accepts it. */
  function EnterSalaryPercent(cfg: Config, d: Draft, text: string): (r: Draft)
    requires d.step == SalaryPercent
    ensures r == d <==> CheckSalaryPercent(cfg, text).Failure?
    ensures CheckSalaryPercent(cfg, text).Success? ==>
      && r.step == Confirm
      && r.salaryPercent == Some(DigitsValue(text))
      && cfg.minSalaryPercent <= DigitsValue(text) <= cfg.maxSalaryPercent
      && r.(step := d.step, salaryPercent := d.salaryPercent) == d
  {
    match CheckSalaryPercent(cfg, text)
    case Failure(_) => d
    case Success(p) => d.(step := Confirm, salaryPercent := Some(p))
  }

  /**
   * The operation amount (user and admin alike): a float is stored, anything else is
   * refused and the stored data stays.
   */
  function EnterOperationAmount(stored: Option<real>, text: string, parse: string -> Option<real>): (r: Option<real>)
    ensures parse(text).None? ==> r == stored
    ensures parse(text).Some? ==> r == parse(text)
  {
    if parse(text).Some? then parse(text) else stored
  }

  /**
   * The report `handle_create_report_confirm` creates from the data: missing keys read as
   * `""`, `0` and `False`, and both sums are converted to euro with the user's currency.
   */
  function DraftReport(d: Draft, user: UserId, c: Currency, now: Instant): (r: Report)
    ensures r.user == user && r.active && r.createdAt == now
    ensures r.amount == c.ToEur(d.amount.GetOr(0.0)) && r.refundAmount == c.ToEur(d.refundAmount.GetOr(0.0))
    ensures r.partner == d.partner.GetOr(0) && r.salaryPercent == d.salaryPercent.GetOr(0)
    ensures r.erroneous == d.erroneous.GetOr(false) && r.photo == d.photo.GetOr("")
  {
    NewReport(user, d.photo.GetOr(""), c.ToEur(d.amount.GetOr(0.0)), c.ToEur(d.refundAmount.GetOr(0.0)),
              d.salaryPercent.GetOr(0), d.partner.GetOr(0), d.erroneous.GetOr(false), now)
  }

  /**
   * A conversation with well-formed answers reaches confirmation with every key stored,
   * whatever data was left over, and the report made from it carries the answers: the
   * sums in euro, the chosen partner, the erroneous flag, and the typed percent, or 0
   * for BET_20. A percent outside the allowed range never reaches confirmation.
   */
  lemma ConversationReachesConfirm(
    cfg: Config, start: Draft, erroneous: bool, photoId: string, cur: CurrencyId,
    stakeText: string, refundText: string, partnerId: PartnerId, percentText: string,
    parse: string -> Option<real>, user: UserId, c: Currency, now: Instant)
    requires parse(stakeText).Some? && parse(refundText).Some?
    ensures var d := SelectPartner(cfg, EnterRefund(EnterStake(EnterPhoto(StartReport(start, erroneous), photoId, cur),
                                                               stakeText, parse), refundText, parse), partnerId);
      var last := if d.step == SalaryPercent then EnterSalaryPercent(cfg, d, percentText) else d;
      var r := DraftReport(last, user, c, now);
      && (last.step == Confirm <==>
            partnerId == cfg.bet20PartnerId || CheckSalaryPercent(cfg, percentText).Success?)
      && (last.step == Confirm ==>
            && r.amount == c.ToEur(parse(stakeText).value)
            && r.refundAmount == c.ToEur(parse(refundText).value)
            && r.partner == partnerId && r.erroneous == erroneous && r.photo == photoId
            && r.salaryPercent == (if partnerId == cfg.bet20PartnerId then 0 else DigitsValue(percentText))
            && (partnerId != cfg.bet20PartnerId ==>
                  cfg.minSalaryPercent <= r.salaryPercent <= cfg.maxSalaryPercent))
  {
  }
}
