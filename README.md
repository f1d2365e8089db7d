# Job-board models: validators and cascading store

A Dafny model of `models.py`, the data layer of a job-board backend. There are five mapped
classes: `User`, `Job`, `JobApplication`, `Payment` and `ExtraResource`. The model covers
two things:

- **Field validators.** Nine `@validates` hooks check a value before it is assigned to a
  column. Each hook returns the value unchanged or raises `ValueError`. Eight are modelled;
  `validate_posted_date` is left out (see Left out).
- **The store.** The tables have foreign keys and `users.email` is unique. Three
  relationships carry `cascade="all, delete"` (models.py:49, 50, 86): `User.payments`,
  `User.job_applications` and `Job.job_applications`.

Files:

- `email.dfy` (module `EmailPattern`). The e-mail hook calls
  `re.match(r"[^@]+@[^@]+\.[^@]+", email)`. The pattern is written as a list of pieces,
  and a small backtracking matcher gives it `re.match` semantics: the match is anchored at
  the start of the string only. `EmailShape` describes the same strings by positions,
  without reference to the matcher. `MatchIffShape` proves the two agree, in both
  directions.
- `validators.dfy` (module `Validators`). One predicate per rule. One `Assign…` function
  per hook, which returns `Ok(value)` or `Err(kind)`. `Message` holds the exact text of
  each `ValueError`.
- `entities.dfy` (module `Entities`). One record per table, holding the columns the class
  declares. `New…` builds a row the way the ORM constructor assigns it: it runs the hooks of
  the validated columns in column order (see Left out), so the first failing rule decides
  the error. The
  `With…` setters run one hook. On a rejection the setter returns `Err` and the caller
  keeps the old record.
- `store.dfy` (module `Store`). `Tables` is the database as a value. `PaymentsOf`,
  `ApplicationsOfUser` and `ApplicationsOfJob` are the relationship collections, derived
  from the foreign keys. `Consistent` combines three checks: every foreign key resolves,
  e-mails are unique, and every stored value passed its hook. `DeleteUserCascade` and
  `DeleteJobCascade` specify the cascades. `Database` is a class whose `tables` field holds
  the five tables, as maps from id to row, beside one id counter per table. Its insert,
  update and delete methods replace those maps in place. Each method keeps `Valid()`, and each states the new tables in terms of the old
  ones. A write that fails changes nothing, as when the session rolls back.
- `scenarios.dfy` (module `Scenarios`). Client methods that use only the store's contracts.

Facts about the code that the model follows:

- `User` has a `name` column and no `username`, phone or join date.
- `validate_amount` accepts any positive amount (models.py:159).
- `ExtraResource` has no foreign key to `jobs`, so deleting a job leaves resources alone.
- `Job` has a single `salary` column, which must be strictly positive. There is no salary
  range and no job type.
- `JobApplication` has no status column.
- Deleting a `Job` cascades only to its applications.
- The expiration date is compared with the job's posted date, not with the current time.

Values: `salary` and `amount` are `Numeric(10, 2)` columns and are modelled as `real`.
Timestamps are modelled as `int`, because the hooks only compare them.

## Model

| member | source | states |
|---|---|---|
| `EmailPattern.Matches` | models.py:20 | The `re.match` test of the e-mail hook. An accepted string has at least five characters and does not start with '@'. |
| `EmailPattern.MatchIffShape` | models.py:18-22 | The pattern accepts a string exactly when it has non-'@' characters, then '@', then non-'@' characters, then '.', then one non-'@' character, followed by anything. Both directions are proved. |
| `EmailPattern.MatchMoreSplit` | models.py:20 | A successful `[^@]+` match splits into a run of the class followed by a match of the rest of the pattern. |
| `EmailPattern.MatchMoreFrom` | models.py:20 | Conversely, a run of the class followed by a match of the rest makes the `+` piece match. Backtracking finds any split. |
| `EmailPattern.NoAtRejected` | models.py:20-21 | A string with no '@' is rejected. |
| `EmailPattern.TrailingTextAccepted` | models.py:20 | `re.match` is not anchored at the end, so an accepted address stays accepted whatever text is appended. |
| `EmailPattern.LeadingAtRejected` | models.py:20-21 | An empty local part (a leading '@') is rejected. |
| `EmailPattern.AtInDomainRejected` | models.py:20-21 | If every '.' after the first '@' has another '@' between them, the string is rejected: the domain may not contain '@'. |
| `EmailPattern.Examples` | models.py:20-21 | "ann@x.co", "a@b.c and more" and "a@..c" are accepted. "ann@x", "ann@x.", "@x.co" and "ann@x.@" are rejected. |
| `Validators.Message` | models.py:18-197 | Every rejection carries a non-empty `ValueError` text, the one its hook raises. |
| `Validators.MessageIdentifiesRejection` | models.py:21-195 | No two hooks raise the same text, so the message identifies the rejection. |
| `Validators.AssignEmail` | models.py:18-22 | The address is returned unchanged exactly when it has the reference shape. Otherwise the result is the e-mail rejection. |
| `Validators.AssignRole` | models.py:24-28 | The role is returned unchanged exactly when it is "normal", "premium" or "admin". Otherwise the result is the role rejection. |
| `Validators.DefaultRoleAccepted` | models.py:13 | The column default "normal" passes the role hook. |
| `Validators.AssignPasswordHash` | models.py:30-34 | The stored hash is returned unchanged exactly when it has at least 6 characters. Otherwise the result is the length rejection. |
| `Validators.AssignSalary` | models.py:70-74 | The salary is returned unchanged exactly when it is strictly positive. Zero and negative values are rejected. |
| `Validators.AssignExpirationDate` | models.py:75-79 | The expiration date is returned unchanged exactly when it is strictly later than the posted date. An equal date is rejected. |
| `Validators.AssignAmount` | models.py:157-161 | The amount is returned unchanged exactly when it is strictly positive. |
| `Validators.AssignPaymentMethod` | models.py:162-166 | The method is returned unchanged exactly when it is "credit_card" or "paypal". |
| `Validators.AssignTitle` | models.py:193-197 | The title is returned unchanged exactly when it has at least 5 characters. |
| `Entities.NewUser` | models.py:10-34 | The row is built exactly when the given role (or the default), the e-mail and the hash all pass. On success it holds exactly the given values, with "normal" when no role is given, and is valid. Otherwise the first failing hook, in column order, names the error. |
| `Entities.User.WithEmail` | models.py:18-22 | Assigning an e-mail succeeds exactly when the hook accepts it. Only that field changes, and validity is kept. A rejection carries the e-mail error. |
| `Entities.User.WithRole` | models.py:24-28 | Assigning a role succeeds exactly when the hook accepts it. Only that field changes, and validity is kept. |
| `Entities.User.WithPasswordHash` | models.py:30-34 | Assigning a hash succeeds exactly when it has at least 6 characters. Only that field changes, and validity is kept. |
| `Entities.NewJob` | models.py:59-79 | The row is built exactly when the salary is positive and the expiration is after the posted date. The salary is checked first. On success the row holds the given values and is valid. |
| `Entities.Job.WithSalary` | models.py:70-74 | Assigning a salary succeeds exactly when it is positive. Only that field changes. |
| `Entities.Job.WithExpirationDate` | models.py:75-79 | Assigning an expiration date succeeds exactly when it is after this job's own posted date. Only that field changes. |
| `Entities.NewPayment` | models.py:150-166 | The row is built exactly when the amount is positive and the method is allowed. The amount is checked first. On success the row holds the given values and is valid. |
| `Entities.Payment.WithAmount` | models.py:157-161 | Assigning an amount succeeds exactly when it is positive. Only that field changes. |
| `Entities.Payment.WithPaymentMethod` | models.py:162-166 | Assigning a method succeeds exactly when it is allowed. Only that field changes. |
| `Entities.NewExtraResource` | models.py:187-197 | The row is built exactly when the title has at least 5 characters. |
| `Entities.ExtraResource.WithTitle` | models.py:193-197 | Assigning a title succeeds exactly when it has at least 5 characters. Only that field changes. |
| `Store.PaymentsOf` | models.py:49 | `User.payments` holds stored payments only, and a payment is in it exactly when its `user_id` is that user. |
| `Store.ApplicationsOfUser` | models.py:50 | `User.job_applications` holds stored applications only, and an application is in it exactly when its `user_id` is that user. |
| `Store.ApplicationsOfJob` | models.py:86 | `Job.job_applications` holds stored applications only, and an application is in it exactly when its `job_id` is that job. |
| `Store.ReferencesResolveIffNoOrphans` | models.py:113-114 | `ReferencesResolve` (every foreign key names a stored row, models.py:113-114 and 153) holds exactly when every user or job that does not exist has empty relationship collections. |
| `Store.EmailsUniqueIffNoneInUse` | models.py:15 | `EmailsUnique` (no two users share an address) holds exactly when no user's address is in use by another user, the test the inserts and updates make. |
| `Store.Consistent` | models.py:15 | The invariant of every committed state (foreign keys resolve, e-mails unique, rows valid) holds of the empty database. |
| `Store.PutUserKeepsConsistency` | models.py:15 | Storing a valid user under an id, with an address no other user holds, keeps the database consistent. |
| `Store.DeleteUserCascade` | models.py:49-50 | Only user `id` leaves `users`. A payment or application is removed exactly when its `user_id` is `id`. Surviving rows are unchanged, and jobs and resources are untouched. |
| `Store.DeleteJobCascade` | models.py:86 | Only job `id` leaves `jobs`. An application is removed exactly when its `job_id` is `id`. Users, payments and resources are untouched. |
| `Store.DeleteUserKeepsConsistency` | models.py:153 | After a user's cascade, every foreign key still resolves, e-mails stay unique and every row stays valid. |
| `Store.DeleteJobKeepsConsistency` | models.py:113-114 | After a job's cascade, every foreign key still resolves and every row stays valid. |
| `Store.CascadesCommute` | models.py:86 | Deleting a user and deleting a job give the same tables in either order. |
| `Store.DeleteUserIdempotent` | models.py:49-50 | Deleting the same user a second time changes nothing more. |
| `Store.DeleteMissingUser` | models.py:49-50 | In a consistent database, a cascade for a user that does not exist removes nothing. |
| `Store.ChildrenBelongToOneParent` | models.py:117-118 | An application is in exactly one user's `job_applications` and one job's `job_applications`, namely those its foreign keys name. |
| `Store.Database.constructor` | models.py:8 | The new database is empty and valid. |
| `Store.Database.InsertUser` | models.py:12-16 | The hooks run first; a rejection writes nothing. Next the unique e-mail is checked, and a taken address writes nothing. Otherwise exactly one new user row, with a fresh id, is added. |
| `Store.Database.InsertJob` | models.py:61-68 | A rejection writes nothing. Otherwise exactly one new job row, with a fresh id, is added. |
| `Store.Database.InsertApplication` | models.py:112-114 | An unknown user, then an unknown job, is refused and writes nothing. Otherwise exactly one new application row is added. |
| `Store.Database.InsertPayment` | models.py:152-156 | The hooks run first, then the foreign key is checked. Any failure writes nothing. Otherwise exactly one new payment row is added. |
| `Store.Database.InsertResource` | models.py:189-191 | A short title writes nothing. Otherwise exactly one new resource row is added. |
| `Store.Database.UpdateUser` | models.py:15-34 | Assigning a validated user column changes only that row. A rejection writes nothing, and so does an e-mail held by another user. |
| `Store.Database.UpdateJob` | models.py:70-79 | Assigning the salary or the expiration date changes only that row. A rejection writes nothing. |
| `Store.Database.UpdatePayment` | models.py:157-166 | Assigning the amount or the method changes only that row. A rejection writes nothing. |
| `Store.Database.UpdateResourceTitle` | models.py:193-197 | Assigning the title changes only that row. A rejection writes nothing. |
| `Store.Database.DeleteUser` | models.py:49-50 | The new tables are exactly `DeleteUserCascade` of the old ones, and the store stays valid. A missing id changes nothing. |
| `Store.Database.DeleteJob` | models.py:86 | The new tables are exactly `DeleteJobCascade` of the old ones, and the store stays valid. A missing id changes nothing. |
| `Store.Database.DeleteApplication` | models.py:117-118 | Only that application row is removed. Its user and job stay. |
| `Store.Database.DeletePayment` | models.py:169 | Only that payment row is removed. Its user stays. |
| `Store.Database.DeleteResource` | models.py:187-191 | Only that resource row is removed. |

## Left out

- `app.py` is not part of this model. It configures Flask, Flask-Migrate and the SQLite URI and holds no logic.
- `set_password` / `check_password` (models.py:52-56) call werkzeug's password hashing, which is not modelled. The model receives the stored hash directly, and the length hook applies to that hash.
- `validate_posted_date` (models.py:80-84) compares the value with the SQL expression `db.func.current_timestamp()`, not with a clock reading. The result depends on SQLAlchemy's expression semantics, so the rule is not modelled. The posted date is given to `NewJob` / `InsertJob` explicitly, and no operation reassigns it afterwards. In the source, reassigning `posted_date` is not re-checked against `expiration_date`. In the source, `Job(..., expiration_date=X)` always raises `TypeError`: without a `posted_date` the hook compares against `None`, and with one, `validate_posted_date` compares against a SQL expression whose truth value Python refuses. So the source's constructor never builds a `Job`, while `NewJob` and `InsertJob` succeed on valid input.
- Server-side defaults `posted_date` and `payment_date` (models.py:67, 155) are left out. So is the case where `validate_expiration_date` sees a `None` posted date before the first flush. In Python that comparison raises `TypeError`.
- The `to_dict` methods (models.py:36-46, 88-107, 120-148, 171-184, 199-221) are left out. They read attributes the classes never define, so every call would raise `AttributeError`.
- `SerializerMixin`, sessions and transactions are library code. Their effect is modelled only as all-or-nothing writes.
- Column widths (`String(20)`, `String(255)`, `String(50)`) and `Numeric(10, 2)` precision are not modelled, and SQLite does not enforce them either. `nullable=False` is modelled by giving no column an absent value.
- Foreign keys: the store refuses a missing parent, as the declarations say. SQLite checks foreign keys only when `PRAGMA foreign_keys` is on, and the application does not turn it on.
- Primary keys come from a counter per table and are never reused. SQLite's rowid allocation may reuse the largest deleted id.
- The order of hooks is fixed to column order. In the source it follows the order of the keyword arguments the caller passes.
- `Validators.AssignSalary` and `Validators.AssignAmount` do not model Python floats. A float NaN is not `<= 0`, so the source accepts a NaN salary or amount; reals have no NaN. Integer, float and `Decimal` arguments are all modelled as `real`.
- `Validators.AssignEmail` covers string arguments only. A non-string raises `TypeError` inside `re.match`.
- Reassigning the foreign keys of existing payments and applications is not modelled. Neither is assigning columns without a hook (`name`, the job's text columns, `description`).
