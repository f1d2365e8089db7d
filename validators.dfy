/**
 * The `@validates` hooks of models.py as pure checks.
 *
 * Each hook receives the value about to be assigned to a column and either returns it
 * unchanged (the ORM then stores exactly that value) or raises `ValueError`, in which case
 * the assignment never happens. Here a hook is an `Assign…` function returning `Ok(v)` or
 * `Err(kind)`, and the rule it enforces is a predicate of its own.
 */
module Validators {
  import EmailPattern

  /** Why a hook raised `ValueError`; `Message` gives the text it raises with. */
  datatype Rejection =
    | InvalidEmail
    | InvalidRole
    | PasswordTooShort
    | NonPositiveSalary
    | ExpirationNotAfterPosted
    | NonPositiveAmount
    | InvalidPaymentMethod
    | TitleTooShort

  function Message(k: Rejection): (m: string)
    ensures |m| > 0
  {
    match k
    case InvalidEmail => "Invalid email format"
    case InvalidRole => "Invalid role"
    case PasswordTooShort => "Password must be at least 6 characters long"
    case NonPositiveSalary => "Salary must be greater than 0"
    case ExpirationNotAfterPosted => "Expiration date must be after posted date"
    case NonPositiveAmount => "Amount must be greater than 0"
    case InvalidPaymentMethod => "Invalid payment method"
    case TitleTooShort => "Title must be at least 5 characters long"
  }

  /** The message tells the rejections apart: no two hooks raise the same text. */
  lemma MessageIdentifiesRejection(k1: Rejection, k2: Rejection)
    requires Message(k1) == Message(k2)
    ensures k1 == k2
  {
  }

  datatype Option<T> = None | Some(value: T) {
    function GetOr(default: T): T {
      match this
      case Some(v) => v
      case None => default
    }
  }

  /** The value the hook returned, or the rejection it raised. */
  datatype Result<T> = Ok(value: T) | Err(error: Rejection)

  const Roles: seq<string> := ["normal", "premium", "admin"]
  /** The `role` column's default. */
  const DefaultRole: string := "normal"
  const PaymentMethods: seq<string> := ["credit_card", "paypal"]
  const MinPasswordHashLength: nat := 6
  const MinTitleLength: nat := 5

  /** A timestamp (`db.TIMESTAMP`); only its order matters to the hooks. */
  type Timestamp = int

  predicate ValidEmail(email: string) {
    EmailPattern.Matches(email)
  }

  predicate ValidRole(role: string) {
    role in Roles
  }

  predicate ValidPasswordHash(passwordHash: string) {
    |passwordHash| >= MinPasswordHashLength
  }

  predicate ValidSalary(salary: real) {
    salary > 0.0
  }

  predicate ValidExpiration(postedDate: Timestamp, expirationDate: Timestamp) {
    expirationDate > postedDate
  }

  predicate ValidAmount(amount: real) {
    amount > 0.0
  }

  predicate ValidPaymentMethod(paymentMethod: string) {
    paymentMethod in PaymentMethods
  }

  predicate ValidTitle(title: string) {
    |title| >= MinTitleLength
  }

  /** The shape shared by every hook: return the value if the rule holds, otherwise raise. */
  function Check<T>(rule: bool, v: T, kind: Rejection): Result<T> {
    if rule then Ok(v) else Err(kind)
  }

  /** `User.validate_email`: accepted exactly when the address has the reference shape. */
  function AssignEmail(email: string): (r: Result<string>)
    ensures r == Ok(email) <==> EmailPattern.EmailShape(email)
    ensures r != Ok(email) ==> r == Err(InvalidEmail)
  {
    EmailPattern.MatchIffShape(email);
    Check(ValidEmail(email), email, InvalidEmail)
  }

  /** `User.validate_role`: only the three roles of the column comment. */
  function AssignRole(role: string): (r: Result<string>)
    ensures r == Ok(role) <==> role == "normal" || role == "premium" || role == "admin"
    ensures r != Ok(role) ==> r == Err(InvalidRole)
  {
    Check(ValidRole(role), role, InvalidRole)
  }

  /** The column default needs no hook: it already passes `validate_role`. */
  lemma DefaultRoleAccepted()
    ensures AssignRole(DefaultRole) == Ok(DefaultRole)
  {
  }

  /** `User.validate_password_hash`: the stored hash, not the plaintext, has at least 6 characters. */
  function AssignPasswordHash(passwordHash: string): (r: Result<string>)
    ensures r == Ok(passwordHash) <==> |passwordHash| >= 6
    ensures r != Ok(passwordHash) ==> r == Err(PasswordTooShort)
  {
    Check(ValidPasswordHash(passwordHash), passwordHash, PasswordTooShort)
  }

  /** `Job.validate_salary`: strictly positive; zero is rejected. */
  function AssignSalary(salary: real): (r: Result<real>)
    ensures r == Ok(salary) <==> salary > 0.0
    ensures r != Ok(salary) ==> r == Err(NonPositiveSalary)
  {
    Check(ValidSalary(salary), salary, NonPositiveSalary)
  }

  /** `Job.validate_expiration_date`: strictly after the job's posted date; equal dates are rejected. */
  function AssignExpirationDate(postedDate: Timestamp, expirationDate: Timestamp): (r: Result<Timestamp>)
    ensures r == Ok(expirationDate) <==> postedDate < expirationDate
    ensures r != Ok(expirationDate) ==> r == Err(ExpirationNotAfterPosted)
  {
    Check(ValidExpiration(postedDate, expirationDate), expirationDate, ExpirationNotAfterPosted)
  }

  /** `Payment.validate_amount`: any strictly positive amount. */
  function AssignAmount(amount: real): (r: Result<real>)
    ensures r == Ok(amount) <==> amount > 0.0
    ensures r != Ok(amount) ==> r == Err(NonPositiveAmount)
  {
    Check(ValidAmount(amount), amount, NonPositiveAmount)
  }

  /** `Payment.validate_payment_method`: only the two listed methods. */
  function AssignPaymentMethod(paymentMethod: string): (r: Result<string>)
    ensures r == Ok(paymentMethod) <==> paymentMethod == "credit_card" || paymentMethod == "paypal"
    ensures r != Ok(paymentMethod) ==> r == Err(InvalidPaymentMethod)
  {
    Check(ValidPaymentMethod(paymentMethod), paymentMethod, InvalidPaymentMethod)
  }

  /** `ExtraResource.validate_title`: at least 5 characters. */
  function AssignTitle(title: string): (r: Result<string>)
    ensures r == Ok(title) <==> |title| >= 5
    ensures r != Ok(title) ==> r == Err(TitleTooShort)
  {
    Check(ValidTitle(title), title, TitleTooShort)
  }
}
