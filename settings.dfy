/**
 * The deployment constants the handlers read from `src.data.settings`. Their values are
 * not part of the repository, so every operation takes them as a `Config` and no
 * relation between them is assumed (in particular the two special partner ids may be
 * equal).
 */
module Settings {

  datatype Config = Config(
    /** The fee-schedule partner: fixed fraction, Bet20Salary account, no percent step. */
    bet20PartnerId: int,
    /** The partner whose reports also move half the profit into `misha_balance`. */
    mishaPartnerId: int,
    bet20SalaryFraction: real,
    /** Used only for the fine on erroneous reports. */
    defaultSalaryFraction: real,
    charityFraction: real,
    minSalaryPercent: int,
    maxSalaryPercent: int)
}
