/**
  Vocabulary shared by the components of the finance tracker: optional values,
  the two UI languages, and the outcome of submitting one of the "add" forms.
 */
module Common {

  /** An optional value. `None` also stands for JavaScript's `NaN` where a
      parsed number is expected. */
  datatype Option<+T> = None | Some(value: T)

  /** The two languages the UI is written in. */
  datatype Language = En | Hi {
    /** The code under which the language is persisted ('en' or 'hi'). */
    function Code(): string {
      match this
      case En => "en"
      case Hi => "hi"
    }
  }

  /** The choice `language === 'hi' ? hi : en` that the components make
      for every piece of localised text. */
  function Localised<T>(lang: Language, en: T, hi: T): T {
    if lang == Hi then hi else en
  }

  /** True for the ASCII digits, the characters the `\d` of a
      non-Unicode JavaScript regular expression matches. */
  predicate IsAsciiDigit(c: char) {
    '0' <= c <= '9'
  }

  /** A JavaScript string is falsy exactly when it is empty. */
  predicate Filled(s: string) {
    s != ""
  }

  /** The amount check shared by all three forms: `isNaN(n) || n <= 0`
      rejects, so an amount is accepted when it is a number above zero. */
  predicate PositiveAmount(amount: Option<real>) {
    amount.Some? && amount.value > 0.0
  }

  /** Why a form submission was refused; each form reports at most one. */
  datatype Rejection = MissingField | InvalidAmount | InvalidDate

  /** What submitting a form leads to: a rejection before the backend is
      contacted, or an attempt to create `record`, which the backend either
      accepted or refused (the refusal shows an alert and keeps the form). */
  datatype Outcome<+R> =
    | Rejected(reason: Rejection)
    | StoreFailed(record: R)
    | Created(record: R)

  /** The outcome of one submission together with the form state after it. */
  datatype Submission<+R, +F> = Submission(outcome: Outcome<R>, form: F)
}
