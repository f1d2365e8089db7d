/**
 * The five tables of models.py, their foreign keys, the `email` uniqueness constraint and
 * the `cascade="all, delete"` relationships.
 *
 * `Tables` is the content of the database as a value; the relationship collections
 * (`User.payments`, `User.job_applications`, `Job.job_applications`) are derived from the
 * foreign keys, and the cascades are specified as functions on `Tables` whose contracts state
 * what is removed and that referential integrity survives. `Database` holds the tables as map
 * fields and updates them in place, one method per write the ORM performs.
 */
module Store {
  import opened Validators
  import opened Entities

  datatype Tables = Tables(
    users: map<Id, User>,
    jobs: map<Id, Job>,
    applications: map<Id, JobApplication>,
    payments: map<Id, Payment>,
    resources: map<Id, ExtraResource>)

  const Empty: Tables := Tables(map[], map[], map[], map[], map[])

  /** `User.payments`: the payments whose `user_id` is u. */
  function PaymentsOf(t: Tables, u: Id): (r: set<Id>)
    ensures r <= t.payments.Keys
    ensures forall p | p in t.payments :: p in r <==> t.payments[p].userId == u
  {
    set p | p in t.payments && t.payments[p].userId == u
  }

  /** `User.job_applications`: the applications whose `user_id` is u. */
  function ApplicationsOfUser(t: Tables, u: Id): (r: set<Id>)
    ensures r <= t.applications.Keys
    ensures forall a | a in t.applications :: a in r <==> t.applications[a].userId == u
  {
    set a | a in t.applications && t.applications[a].userId == u
  }

  /** `Job.job_applications`: the applications whose `job_id` is j. */
  function ApplicationsOfJob(t: Tables, j: Id): (r: set<Id>)
    ensures r <= t.applications.Keys
    ensures forall a | a in t.applications :: a in r <==> t.applications[a].jobId == j
  {
    set a | a in t.applications && t.applications[a].jobId == j
  }

  /** Every foreign key names an existing row. */
  predicate ReferencesResolve(t: Tables) {
    && (forall a | a in t.applications :: t.applications[a].userId in t.users && t.applications[a].jobId in t.jobs)
    && (forall p | p in t.payments :: t.payments[p].userId in t.users)
  }

  /** `users.email` is `unique=True`: no two users share an address. */
  predicate EmailsUnique(t: Tables) {
    forall u, v | u in t.users && v in t.users && u != v :: t.users[u].email != t.users[v].email
  }

  /** Every stored value passed its column's hook. */
  predicate RowsValid(t: Tables) {
    && (forall u | u in t.users :: t.users[u].Valid())
    && (forall j | j in t.jobs :: t.jobs[j].Valid())
    && (forall p | p in t.payments :: t.payments[p].Valid())
    && (forall r | r in t.resources :: t.resources[r].Valid())
  }

  /** The invariant every committed state keeps; the empty database has it. */
  predicate Consistent(t: Tables): (r: bool)
    ensures t == Empty ==> r
  {
    ReferencesResolve(t) && EmailsUnique(t) && RowsValid(t)
  }

  /** Does a user other than `except` already hold this address? */
  predicate EmailInUse(t: Tables, email: string, except: Option<Id>) {
    exists u | u in t.users :: t.users[u].email == email && except != Some(u)
  }

  /**
   * Foreign keys seen from the parent side: every reference resolves exactly when a user or
   * job that does not exist has empty relationship collections.
   */
  lemma ReferencesResolveIffNoOrphans(t: Tables)
    ensures ReferencesResolve(t) <==>
      && (forall u | u !in t.users :: PaymentsOf(t, u) == {} && ApplicationsOfUser(t, u) == {})
      && (forall j | j !in t.jobs :: ApplicationsOfJob(t, j) == {})
  {
  }

  /**
   * Uniqueness is what the inserts and updates check before they commit: every user's
   * address is in use by no other user.
   */
  lemma EmailsUniqueIffNoneInUse(t: Tables)
    ensures EmailsUnique(t) <==> forall u | u in t.users :: !EmailInUse(t, t.users[u].email, Some(u))
  {
  }

  /**
   * Deleting user `id`: the user's payments and job applications go with it
   * (`cascade="all, delete"`), nothing else changes, and no row is left pointing at a
   * user that is gone.
   */
  function DeleteUserCascade(t: Tables, id: Id): (r: Tables)
    ensures id !in r.users && r.users.Keys == t.users.Keys - {id}
    ensures forall u | u in r.users :: r.users[u] == t.users[u]
    ensures forall p | p in t.payments :: p in r.payments <==> t.payments[p].userId != id
    ensures forall p | p in r.payments :: p in t.payments && r.payments[p] == t.payments[p]
    ensures forall a | a in t.applications :: a in r.applications <==> t.applications[a].userId != id
    ensures forall a | a in r.applications :: a in t.applications && r.applications[a] == t.applications[a]
    ensures r.jobs == t.jobs && r.resources == t.resources
  {
    Tables(
      t.users - {id},
      t.jobs,
      t.applications - ApplicationsOfUser(t, id),
      t.payments - PaymentsOf(t, id),
      t.resources)
  }

  /**
   * Deleting job `id`: its job applications go with it; extra resources stay, since
   * `ExtraResource` has no foreign key to `jobs`.
   */
  function DeleteJobCascade(t: Tables, id: Id): (r: Tables)
    ensures id !in r.jobs && r.jobs.Keys == t.jobs.Keys - {id}
    ensures forall j | j in r.jobs :: r.jobs[j] == t.jobs[j]
    ensures forall a | a in t.applications :: a in r.applications <==> t.applications[a].jobId != id
    ensures forall a | a in r.applications :: a in t.applications && r.applications[a] == t.applications[a]
    ensures r.users == t.users && r.payments == t.payments && r.resources == t.resources
  {
    Tables(
      t.users,
      t.jobs - {id},
      t.applications - ApplicationsOfJob(t, id),
      t.payments,
      t.resources)
  }

  /** Storing a valid user whose address no other user holds keeps the database consistent. */
  lemma PutUserKeepsConsistency(t: Tables, id: Id, u: User)
    requires Consistent(t) && u.Valid() && !EmailInUse(t, u.email, Some(id))
    ensures Consistent(t.(users := t.users[id := u]))
  {
  }

  /** After a user's cascade no payment or application points at a missing row. */
  lemma DeleteUserKeepsConsistency(t: Tables, id: Id)
    requires Consistent(t)
    ensures Consistent(DeleteUserCascade(t, id))
  {
  }

  /** After a job's cascade no application points at a missing row. */
  lemma DeleteJobKeepsConsistency(t: Tables, id: Id)
    requires Consistent(t)
    ensures Consistent(DeleteJobCascade(t, id))
  {
  }

  /** The order in which two cascades run does not matter. */
  lemma CascadesCommute(t: Tables, u: Id, j: Id)
    ensures DeleteJobCascade(DeleteUserCascade(t, u), j) == DeleteUserCascade(DeleteJobCascade(t, j), u)
  {
  }

  /** Deleting a user twice is deleting it once. */
  lemma DeleteUserIdempotent(t: Tables, id: Id)
    ensures DeleteUserCascade(DeleteUserCascade(t, id), id) == DeleteUserCascade(t, id)
  {
  }

  /** In a consistent database, deleting a user that does not exist changes nothing. */
  lemma DeleteMissingUser(t: Tables, id: Id)
    requires Consistent(t) && id !in t.users
    ensures DeleteUserCascade(t, id) == t
  {
  }

  /** The relationship collections partition the child rows by their parent. */
  lemma ChildrenBelongToOneParent(t: Tables, a: Id)
    requires Consistent(t) && a in t.applications
    ensures forall u | u in t.users :: a in ApplicationsOfUser(t, u) <==> u == t.applications[a].userId
    ensures forall j | j in t.jobs :: a in ApplicationsOfJob(t, j) <==> j == t.applications[a].jobId
    ensures t.applications[a].userId in t.users && t.applications[a].jobId in t.jobs
  {
  }

  /** The outcome of a write: the id of the new row, or why nothing was written. */
  datatype StoreError = Rejected(kind: Rejection) | DuplicateEmail | UnknownUser | UnknownJob | NotFound
  datatype Outcome<T> = Success(value: T) | Failure(error: StoreError)

  /** An assignment to one validated column of a `users` row. */
  datatype UserChange = SetEmail(email: string) | SetRole(role: string) | SetPasswordHash(passwordHash: string)

  function ApplyUserChange(u: User, c: UserChange): Result<User> {
    match c
    case SetEmail(e) => u.WithEmail(e)
    case SetRole(r) => u.WithRole(r)
    case SetPasswordHash(h) => u.WithPasswordHash(h)
  }

  /** An assignment to one validated column of a `jobs` row. */
  datatype JobChange = SetSalary(salary: real) | SetExpirationDate(expirationDate: Timestamp)

  function ApplyJobChange(j: Job, c: JobChange): Result<Job> {
    match c
    case SetSalary(s) => j.WithSalary(s)
    case SetExpirationDate(e) => j.WithExpirationDate(e)
  }

  /** An assignment to one validated column of a `payments` row. */
  datatype PaymentChange = SetAmount(amount: real) | SetPaymentMethod(paymentMethod: string)

  function ApplyPaymentChange(p: Payment, c: PaymentChange): Result<Payment> {
    match c
    case SetAmount(a) => p.WithAmount(a)
    case SetPaymentMethod(m) => p.WithPaymentMethod(m)
  }

  /**
   * The database. Primary keys come from one counter per table and are never reused;
   * a write that fails changes nothing (the session rolls back).
   */
  class Database {
    var tables: Tables
    var nextUserId: Id
    var nextJobId: Id
    var nextApplicationId: Id
    var nextPaymentId: Id
    var nextResourceId: Id

    ghost predicate Valid()
      reads this
    {
      && Consistent(tables)
      && (forall k | k in tables.users :: k < nextUserId)
      && (forall k | k in tables.jobs :: k < nextJobId)
      && (forall k | k in tables.applications :: k < nextApplicationId)
      && (forall k | k in tables.payments :: k < nextPaymentId)
      && (forall k | k in tables.resources :: k < nextResourceId)
    }

    constructor ()
      ensures Valid() && tables == Empty
    {
      tables := Empty;
      nextUserId, nextJobId, nextApplicationId, nextPaymentId, nextResourceId := 1, 1, 1, 1, 1;
    }

    /** `User(...)` added and committed: the hooks, then the unique email at commit. */
    method InsertUser(name: string, email: string, role: Option<string>, passwordHash: string) returns (r: Outcome<Id>)
      requires Valid()
      modifies this
      ensures Valid()
      ensures var u := NewUser(name, email, role, passwordHash);
        && (u.Err? ==> r == Failure(Rejected(u.error)) && tables == old(tables))
        && (u.Ok? && EmailInUse(old(tables), email, None) ==> r == Failure(DuplicateEmail) && tables == old(tables))
        && (u.Ok? && !EmailInUse(old(tables), email, None) ==>
              r.Success? && r.value !in old(tables.users) && tables == old(tables).(users := old(tables.users)[r.value := u.value]))
    {
      var u := NewUser(name, email, role, passwordHash);
      if u.Err? {
        return Failure(Rejected(u.error));
      }
      if EmailInUse(tables, email, None) {
        return Failure(DuplicateEmail);
      }
      PutUserKeepsConsistency(tables, nextUserId, u.value);
      r := Success(nextUserId);
      tables := tables.(users := tables.users[nextUserId := u.value]);
      nextUserId := nextUserId + 1;
    }

    /** `Job(...)` added and committed. */
    method InsertJob(
      name: string, description: string, location: string, requirements: string,
      salary: real, postedDate: Timestamp, expirationDate: Timestamp) returns (r: Outcome<Id>)
      requires Valid()
      modifies this
      ensures Valid()
      ensures var j := NewJob(name, description, location, requirements, salary, postedDate, expirationDate);
        && (j.Err? ==> r == Failure(Rejected(j.error)) && tables == old(tables))
        && (j.Ok? ==>
              r.Success? && r.value !in old(tables.jobs) && tables == old(tables).(jobs := old(tables.jobs)[r.value := j.value]))
    {
      var j := NewJob(name, description, location, requirements, salary, postedDate, expirationDate);
      if j.Err? {
        return Failure(Rejected(j.error));
      }
      r := Success(nextJobId);
      tables := tables.(jobs := tables.jobs[nextJobId := j.value]);
      nextJobId := nextJobId + 1;
    }

    /** `JobApplication(user_id=..., job_id=...)` added and committed: both keys must exist. */
    method InsertApplication(userId: Id, jobId: Id) returns (r: Outcome<Id>)
      requires Valid()
      modifies this
      ensures Valid()
      ensures userId !in old(tables.users) ==> r == Failure(UnknownUser) && tables == old(tables)
      ensures userId in old(tables.users) && jobId !in old(tables.jobs) ==> r == Failure(UnknownJob) && tables == old(tables)
      ensures userId in old(tables.users) && jobId in old(tables.jobs) ==>
        && r.Success? && r.value !in old(tables.applications)
        && tables == old(tables).(applications := old(tables.applications)[r.value := JobApplication(userId, jobId)])
    {
      if userId !in tables.users {
        return Failure(UnknownUser);
      }
      if jobId !in tables.jobs {
        return Failure(UnknownJob);
      }
      r := Success(nextApplicationId);
      tables := tables.(applications := tables.applications[nextApplicationId := JobApplication(userId, jobId)]);
      nextApplicationId := nextApplicationId + 1;
    }

    /** `Payment(user_id=..., amount=..., payment_method=...)`: the hooks, then the foreign key. */
    method InsertPayment(userId: Id, amount: real, paymentMethod: string) returns (r: Outcome<Id>)
      requires Valid()
      modifies this
      ensures Valid()
      ensures var p := NewPayment(userId, amount, paymentMethod);
        && (p.Err? ==> r == Failure(Rejected(p.error)) && tables == old(tables))
        && (p.Ok? && userId !in old(tables.users) ==> r == Failure(UnknownUser) && tables == old(tables))
        && (p.Ok? && userId in old(tables.users) ==>
              r.Success? && r.value !in old(tables.payments)
              && tables == old(tables).(payments := old(tables.payments)[r.value := Payment(userId, amount, paymentMethod)]))
    {
      var p := NewPayment(userId, amount, paymentMethod);
      if p.Err? {
        return Failure(Rejected(p.error));
      }
      if userId !in tables.users {
        return Failure(UnknownUser);
      }
      r := Success(nextPaymentId);
      tables := tables.(payments := tables.payments[nextPaymentId := p.value]);
      nextPaymentId := nextPaymentId + 1;
    }

    /** `ExtraResource(...)` added and committed. */
    method InsertResource(title: string, description: string) returns (r: Outcome<Id>)
      requires Valid()
      modifies this
      ensures Valid()
      ensures |title| < 5 ==> r == Failure(Rejected(TitleTooShort)) && tables == old(tables)
      ensures |title| >= 5 ==>
        && r.Success? && r.value !in old(tables.resources)
        && tables == old(tables).(resources := old(tables.resources)[r.value := ExtraResource(title, description)])
    {
      var e := NewExtraResource(title, description);
      if e.Err? {
        return Failure(Rejected(e.error));
      }
      r := Success(nextResourceId);
      tables := tables.(resources := tables.resources[nextResourceId := e.value]);
      nextResourceId := nextResourceId + 1;
    }

    /** Assigning a validated column of user `id`; a new email must also stay unique. */
    method UpdateUser(id: Id, c: UserChange) returns (r: Outcome<Id>)
      requires Valid()
      modifies this
      ensures Valid()
      ensures id !in old(tables.users) ==> r == Failure(NotFound) && tables == old(tables)
      ensures id in old(tables.users) ==> var u := ApplyUserChange(old(tables.users)[id], c);
        && (u.Err? ==> r == Failure(Rejected(u.error)) && tables == old(tables))
        && (u.Ok? && c.SetEmail? && EmailInUse(old(tables), c.email, Some(id)) ==>
              r == Failure(DuplicateEmail) && tables == old(tables))
        && (u.Ok? && !(c.SetEmail? && EmailInUse(old(tables), c.email, Some(id))) ==>
              r == Success(id) && tables == old(tables).(users := old(tables.users)[id := u.value]))
    {
      if id !in tables.users {
        return Failure(NotFound);
      }
      var u := ApplyUserChange(tables.users[id], c);
      if u.Err? {
        return Failure(Rejected(u.error));
      }
      if c.SetEmail? && EmailInUse(tables, c.email, Some(id)) {
        return Failure(DuplicateEmail);
      }
      PutUserKeepsConsistency(tables, id, u.value);
      tables := tables.(users := tables.users[id := u.value]);
      r := Success(id);
    }

    /** Assigning a validated column of job `id`. */
    method UpdateJob(id: Id, c: JobChange) returns (r: Outcome<Id>)
      requires Valid()
      modifies this
      ensures Valid()
      ensures id !in old(tables.jobs) ==> r == Failure(NotFound) && tables == old(tables)
      ensures id in old(tables.jobs) ==> var j := ApplyJobChange(old(tables.jobs)[id], c);
        && (j.Err? ==> r == Failure(Rejected(j.error)) && tables == old(tables))
        && (j.Ok? ==> r == Success(id) && tables == old(tables).(jobs := old(tables.jobs)[id := j.value]))
    {
      if id !in tables.jobs {
        return Failure(NotFound);
      }
      var j := ApplyJobChange(tables.jobs[id], c);
      if j.Err? {
        return Failure(Rejected(j.error));
      }
      tables := tables.(jobs := tables.jobs[id := j.value]);
      r := Success(id);
    }

    /** Assigning a validated column of payment `id`. */
    method UpdatePayment(id: Id, c: PaymentChange) returns (r: Outcome<Id>)
      requires Valid()
      modifies this
      ensures Valid()
      ensures id !in old(tables.payments) ==> r == Failure(NotFound) && tables == old(tables)
      ensures id in old(tables.payments) ==> var p := ApplyPaymentChange(old(tables.payments)[id], c);
        && (p.Err? ==> r == Failure(Rejected(p.error)) && tables == old(tables))
        && (p.Ok? ==> r == Success(id) && tables == old(tables).(payments := old(tables.payments)[id := p.value]))
    {
      if id !in tables.payments {
        return Failure(NotFound);
      }
      var p := ApplyPaymentChange(tables.payments[id], c);
      if p.Err? {
        return Failure(Rejected(p.error));
      }
      tables := tables.(payments := tables.payments[id := p.value]);
      r := Success(id);
    }

    /** Assigning the title of extra resource `id`. */
    method UpdateResourceTitle(id: Id, title: string) returns (r: Outcome<Id>)
      requires Valid()
      modifies this
      ensures Valid()
      ensures id !in old(tables.resources) ==> r == Failure(NotFound) && tables == old(tables)
      ensures id in old(tables.resources) && |title| < 5 ==> r == Failure(Rejected(TitleTooShort)) && tables == old(tables)
      ensures id in old(tables.resources) && |title| >= 5 ==>
        r == Success(id) && tables == old(tables).(resources := old(tables.resources)[id := old(tables.resources)[id].(title := title)])
    {
      if id !in tables.resources {
        return Failure(NotFound);
      }
      var e := tables.resources[id].WithTitle(title);
      if e.Err? {
        return Failure(Rejected(e.error));
      }
      tables := tables.(resources := tables.resources[id := e.value]);
      r := Success(id);
    }

    /**
     * `session.delete(user)`: the user's payments and applications are deleted first, then
     * the user.
     */
    method DeleteUser(id: Id) returns (r: Outcome<Id>)
      requires Valid()
      modifies this
      ensures Valid()
      ensures id !in old(tables.users) ==> r == Failure(NotFound) && tables == old(tables)
      ensures id in old(tables.users) ==> r == Success(id) && tables == DeleteUserCascade(old(tables), id)
    {
      if id !in tables.users {
        return Failure(NotFound);
      }
      DeleteUserKeepsConsistency(tables, id);
      tables := tables.(payments := tables.payments - PaymentsOf(tables, id));
      tables := tables.(applications := tables.applications - ApplicationsOfUser(tables, id));
      tables := tables.(users := tables.users - {id});
      r := Success(id);
    }

    /** `session.delete(job)`: the job's applications are deleted first, then the job. */
    method DeleteJob(id: Id) returns (r: Outcome<Id>)
      requires Valid()
      modifies this
      ensures Valid()
      ensures id !in old(tables.jobs) ==> r == Failure(NotFound) && tables == old(tables)
      ensures id in old(tables.jobs) ==> r == Success(id) && tables == DeleteJobCascade(old(tables), id)
    {
      if id !in tables.jobs {
        return Failure(NotFound);
      }
      DeleteJobKeepsConsistency(tables, id);
      tables := tables.(applications := tables.applications - ApplicationsOfJob(tables, id));
      tables := tables.(jobs := tables.jobs - {id});
      r := Success(id);
    }

    /** Deleting a child row directly: no cascade, the parents stay. */
    method DeleteApplication(id: Id) returns (r: Outcome<Id>)
      requires Valid()
      modifies this
      ensures Valid()
      ensures id !in old(tables.applications) ==> r == Failure(NotFound) && tables == old(tables)
      ensures id in old(tables.applications) ==>
        r == Success(id) && tables == old(tables).(applications := old(tables.applications) - {id})
    {
      if id !in tables.applications {
        return Failure(NotFound);
      }
      tables := tables.(applications := tables.applications - {id});
      r := Success(id);
    }

    method DeletePayment(id: Id) returns (r: Outcome<Id>)
      requires Valid()
      modifies this
      ensures Valid()
      ensures id !in old(tables.payments) ==> r == Failure(NotFound) && tables == old(tables)
      ensures id in old(tables.payments) ==>
        r == Success(id) && tables == old(tables).(payments := old(tables.payments) - {id})
    {
      if id !in tables.payments {
        return Failure(NotFound);
      }
      tables := tables.(payments := tables.payments - {id});
      r := Success(id);
    }

    method DeleteResource(id: Id) returns (r: Outcome<Id>)
      requires Valid()
      modifies this
      ensures Valid()
      ensures id !in old(tables.resources) ==> r == Failure(NotFound) && tables == old(tables)
      ensures id in old(tables.resources) ==>
        r == Success(id) && tables == old(tables).(resources := old(tables.resources) - {id})
    {
      if id !in tables.resources {
        return Failure(NotFound);
      }
      tables := tables.(resources := tables.resources - {id});
      r := Success(id);
    }
  }
}
