/**
 * The five mapped classes of models.py as records. Only the columns the models declare
 * are here; relationship collections are derived from the foreign keys in module Store.
 *
 * Constructing a record runs the hooks of its validated columns in declaration order, so the
 * first rule that fails decides the rejection; a `With…` setter runs one hook and, when it
 * raises, leaves the record as it was (the caller keeps `this`).
 */
module Entities {
  import opened Validators

  type Id = nat

  /** `users` row. `role` defaults to "normal"; `email` is unique across the table (module Store). */
  datatype User = User(name: string, email: string, role: string, passwordHash: string) {
    predicate Valid() {
      ValidEmail(email) && ValidRole(role) && ValidPasswordHash(passwordHash)
    }

    function WithEmail(e: string): (r: Result<User>)
      ensures r.Ok? <==> ValidEmail(e)
      ensures r.Ok? ==> r.value == this.(email := e) && (Valid() ==> r.value.Valid())
      ensures r.Err? ==> r.error == InvalidEmail
    {
      match AssignEmail(e)
      case Ok(v) => Ok(this.(email := v))
      case Err(k) => Err(k)
    }

    function WithRole(role': string): (r: Result<User>)
      ensures r.Ok? <==> ValidRole(role')
      ensures r.Ok? ==> r.value == this.(role := role') && (Valid() ==> r.value.Valid())
      ensures r.Err? ==> r.error == InvalidRole
    {
      match AssignRole(role')
      case Ok(v) => Ok(this.(role := v))
      case Err(k) => Err(k)
    }

    function WithPasswordHash(h: string): (r: Result<User>)
      ensures r.Ok? <==> ValidPasswordHash(h)
      ensures r.Ok? ==> r.value == this.(passwordHash := h) && (Valid() ==> r.value.Valid())
      ensures r.Err? ==> r.error == PasswordTooShort
    {
      match AssignPasswordHash(h)
      case Ok(v) => Ok(this.(passwordHash := v))
      case Err(k) => Err(k)
    }
  }

  /**
   * `User(...)`: `role` (or its default when not given), then `email`, then `password_hash`
   * are validated; `name` has no hook.
   */
  function NewUser(name: string, email: string, role: Option<string>, passwordHash: string): (r: Result<User>)
    ensures r.Ok? <==> (role.Some? ==> ValidRole(role.value)) && ValidEmail(email) && ValidPasswordHash(passwordHash)
    ensures r.Ok? ==> r.value.Valid() && r.value == User(name, email, role.GetOr("normal"), passwordHash)
    ensures role.Some? && !ValidRole(role.value) ==> r == Err(InvalidRole)
    ensures (role.Some? ==> ValidRole(role.value)) && !ValidEmail(email) ==> r == Err(InvalidEmail)
    ensures (role.Some? ==> ValidRole(role.value)) && ValidEmail(email) && !ValidPasswordHash(passwordHash) ==> r == Err(PasswordTooShort)
  {
    DefaultRoleAccepted();
    var roleResult := if role.Some? then AssignRole(role.value) else Ok(DefaultRole);
    match roleResult
    case Err(k) => Err(k)
    case Ok(role') =>
      match AssignEmail(email)
      case Err(k) => Err(k)
      case Ok(email') =>
        match AssignPasswordHash(passwordHash)
        case Err(k) => Err(k)
        case Ok(hash') => Ok(User(name, email', role', hash'))
  }

  /** `jobs` row. `posted_date` is given explicitly (see README). */
  datatype Job = Job(
    name: string,
    description: string,
    location: string,
    requirements: string,
    salary: real,
    postedDate: Timestamp,
    expirationDate: Timestamp)
  {
    predicate Valid() {
      ValidSalary(salary) && ValidExpiration(postedDate, expirationDate)
    }

    function WithSalary(s: real): (r: Result<Job>)
      ensures r.Ok? <==> s > 0.0
      ensures r.Ok? ==> r.value == this.(salary := s) && (Valid() ==> r.value.Valid())
      ensures r.Err? ==> r.error == NonPositiveSalary
    {
      match AssignSalary(s)
      case Ok(v) => Ok(this.(salary := v))
      case Err(k) => Err(k)
    }

    /** The new expiration date is compared with this job's own posted date. */
    function WithExpirationDate(e: Timestamp): (r: Result<Job>)
      ensures r.Ok? <==> postedDate < e
      ensures r.Ok? ==> r.value == this.(expirationDate := e) && (Valid() ==> r.value.Valid())
      ensures r.Err? ==> r.error == ExpirationNotAfterPosted
    {
      match AssignExpirationDate(postedDate, e)
      case Ok(v) => Ok(this.(expirationDate := v))
      case Err(k) => Err(k)
    }
  }

  /** `Job(...)`: `salary` is validated, then `expiration_date` against the posted date. */
  function NewJob(
    name: string, description: string, location: string, requirements: string,
    salary: real, postedDate: Timestamp, expirationDate: Timestamp): (r: Result<Job>)
    ensures r.Ok? <==> salary > 0.0 && postedDate < expirationDate
    ensures r.Ok? ==> r.value.Valid()
    ensures r.Ok? ==> r.value == Job(name, description, location, requirements, salary, postedDate, expirationDate)
    ensures salary <= 0.0 ==> r == Err(NonPositiveSalary)
    ensures salary > 0.0 && expirationDate <= postedDate ==> r == Err(ExpirationNotAfterPosted)
  {
    match AssignSalary(salary)
    case Err(k) => Err(k)
    case Ok(salary') =>
      match AssignExpirationDate(postedDate, expirationDate)
      case Err(k) => Err(k)
      case Ok(expiration') =>
        Ok(Job(name, description, location, requirements, salary', postedDate, expiration'))
  }

  /** `job_applications` row: both foreign keys are non-null. */
  datatype JobApplication = JobApplication(userId: Id, jobId: Id)

  /** `payments` row. `payment_date` is filled in by the database and is not modelled. */
  datatype Payment = Payment(userId: Id, amount: real, paymentMethod: string) {
    predicate Valid() {
      ValidAmount(amount) && ValidPaymentMethod(paymentMethod)
    }

    function WithAmount(a: real): (r: Result<Payment>)
      ensures r.Ok? <==> a > 0.0
      ensures r.Ok? ==> r.value == this.(amount := a) && (Valid() ==> r.value.Valid())
      ensures r.Err? ==> r.error == NonPositiveAmount
    {
      match AssignAmount(a)
      case Ok(v) => Ok(this.(amount := v))
      case Err(k) => Err(k)
    }

    function WithPaymentMethod(m: string): (r: Result<Payment>)
      ensures r.Ok? <==> ValidPaymentMethod(m)
      ensures r.Ok? ==> r.value == this.(paymentMethod := m) && (Valid() ==> r.value.Valid())
      ensures r.Err? ==> r.error == InvalidPaymentMethod
    {
      match AssignPaymentMethod(m)
      case Ok(v) => Ok(this.(paymentMethod := v))
      case Err(k) => Err(k)
    }
  }

  /** `Payment(...)`: `amount` is validated, then `payment_method`. */
  function NewPayment(userId: Id, amount: real, paymentMethod: string): (r: Result<Payment>)
    ensures r.Ok? <==> amount > 0.0 && ValidPaymentMethod(paymentMethod)
    ensures r.Ok? ==> r.value.Valid() && r.value == Payment(userId, amount, paymentMethod)
    ensures amount <= 0.0 ==> r == Err(NonPositiveAmount)
    ensures amount > 0.0 && !ValidPaymentMethod(paymentMethod) ==> r == Err(InvalidPaymentMethod)
  {
    match AssignAmount(amount)
    case Err(k) => Err(k)
    case Ok(amount') =>
      match AssignPaymentMethod(paymentMethod)
      case Err(k) => Err(k)
      case Ok(method') => Ok(Payment(userId, amount', method'))
  }

  /** `extra_resources` row: no foreign key to any other table. */
  datatype ExtraResource = ExtraResource(title: string, description: string) {
    predicate Valid() {
      ValidTitle(title)
    }

    function WithTitle(t: string): (r: Result<ExtraResource>)
      ensures r.Ok? <==> |t| >= 5
      ensures r.Ok? ==> r.value == this.(title := t) && r.value.Valid()
      ensures r.Err? ==> r.error == TitleTooShort
    {
      match AssignTitle(t)
      case Ok(v) => Ok(this.(title := v))
      case Err(k) => Err(k)
    }
  }

  function NewExtraResource(title: string, description: string): (r: Result<ExtraResource>)
    ensures r.Ok? <==> |title| >= 5
    ensures r.Ok? ==> r.value.Valid() && r.value == ExtraResource(title, description)
    ensures r.Err? ==> r.error == TitleTooShort
  {
    match AssignTitle(title)
    case Err(k) => Err(k)
    case Ok(title') => Ok(ExtraResource(title', description))
  }
}
