/**
 * Clients of the store, in the manner of request handlers: they use only the contracts
 * of `Store.Database`, so what they assert follows from them.
 */
module Scenarios {
  import opened Validators
  import opened Entities
  import opened Store
  import EmailPattern

  /** The default role is filled in, a taken address and a malformed one are refused. */
  method UserInsertion() {
    EmailPattern.Examples();
    var db := new Database();
    var ann := db.InsertUser("Ann", "ann@x.co", None, "pbkdf2:sha256$abc");
    assert ann.Success? && db.tables.users[ann.value].role == "normal";
    var dup := db.InsertUser("Other Ann", "ann@x.co", Some("premium"), "pbkdf2:sha256$def");
    assert dup == Failure(DuplicateEmail);
    var bad := db.InsertUser("Bob", "ann@x", None, "pbkdf2:sha256$ghi");
    assert bad == Failure(Rejected(InvalidEmail));
  }

  /** Equal posted and expiration dates, and a zero amount, are refused. */
  method JobAndPaymentRejections(db: Database, user: Id)
    requires db.Valid() && user in db.tables.users
    modifies db
  {
    var late := db.InsertJob("Clerk", "Files things", "Nairobi", "None", 100.0, 20, 20);
    assert late == Failure(Rejected(ExpirationNotAfterPosted));
    var zero := db.InsertPayment(user, 0.0, "paypal");
    assert zero == Failure(Rejected(NonPositiveAmount));
    var cash := db.InsertPayment(user, 100.0, "cash");
    assert cash == Failure(Rejected(InvalidPaymentMethod));
    var any := db.InsertPayment(user, 100.0, "paypal");
    assert any.Success?;
  }

  /** A payment and an application for a user are stored under that user's key. */
  method UserChildren(db: Database, user: Id, job: Id)
    requires db.Valid() && user in db.tables.users && job in db.tables.jobs
    requires db.tables.payments == map[] && db.tables.applications == map[]
    modifies db
  {
    var pay := db.InsertPayment(user, 100.0, "credit_card");
    var app := db.InsertApplication(user, job);
    assert pay.Success? && app.Success?;
    assert db.tables.payments.Keys == {pay.value} && db.tables.payments[pay.value].userId == user;
    assert db.tables.applications.Keys == {app.value} && db.tables.applications[app.value].userId == user;
  }

  /** When every payment and application is the user's, deleting the user leaves none and keeps the jobs. */
  method UserCascade(db: Database, user: Id, job: Id)
    requires db.Valid() && user in db.tables.users && job in db.tables.jobs
    requires forall p | p in db.tables.payments :: db.tables.payments[p].userId == user
    requires forall a | a in db.tables.applications :: db.tables.applications[a].userId == user
    modifies db
  {
    var gone := db.DeleteUser(user);
    assert gone.Success?;
    assert db.tables.payments.Keys == {} && db.tables.applications.Keys == {};
    assert db.tables.payments == map[] && db.tables.applications == map[];
    assert job in db.tables.jobs;
  }
}
