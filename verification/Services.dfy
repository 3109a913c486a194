/** What the transactional service methods share: error results, and the deferred rollback. */
module Services {
  import opened Base
  import opened Transactions

  datatype Kind =
    | InvalidName
    | InvalidId
    | InvalidEmail
    | InvalidUserName
    | InvalidDisplayName
    | InvalidIdentity
    | EmailTaken
    | UserNameTaken
    | IdentityTaken
    | WorkspaceNotFound
    | Forbidden
    | AlreadyMember
    | UserNotFound
    | OwnerRemoval
    | MemberNotFound
    | EmptyBody
    | MessageToSelf
    | ConversationWithSelf
    | InvalidLimit
    | InvalidOffset
    | MessageNotFound
    | Internal  // a wrapped database error

  /** The returned error; a failed deferred rollback is joined to it. */
  datatype ServiceError = ServiceError(kind: Kind, rollbackFailed: bool)

  /** The method fails in this way only if the condition holds, and without faults from outside exactly
      if it does. */
  predicate FailsIff<T>(steady: bool, r: Result<T, ServiceError>, kind: Kind, condition: bool) {
    && (r.Failure? && r.error.kind == kind ==> condition)
    && (steady ==> (r == Failure(ServiceError(kind, false)) <==> condition))
  }

  /** The same of success. */
  predicate SucceedsIff<T>(steady: bool, r: Result<T, ServiceError>, condition: bool) {
    && (r.Success? ==> condition)
    && (steady ==> (r.Success? <==> condition))
  }

  lemma Fails<T>(steady: bool, r: Result<T, ServiceError>, kind: Kind, condition: bool)
    requires r.Failure? && r.error.kind == kind ==> condition
    requires steady ==> (r == Failure(ServiceError(kind, false)) <==> condition)
    ensures FailsIff(steady, r, kind, condition)
  {
  }

  lemma Succeeds<T>(steady: bool, r: Result<T, ServiceError>, condition: bool)
    requires r.Success? ==> condition
    requires steady ==> (r.Success? <==> condition)
    ensures SucceedsIff(steady, r, condition)
  {
  }

  /** The deferred function of every transactional service method. */
  method Finish<T>(tx: Transaction, r: Result<T, Kind>) returns (out: Result<T, ServiceError>)
    requires tx.status != Closed ==> tx.db.open > 0
    requires r.Success? ==> tx.status == Closed
    modifies tx, tx.db`open
    ensures tx.status == Closed
    ensures tx.db.open == old(tx.db.open) - (if old(tx.status) == Closed then 0 else 1)
    ensures r.Success? ==> out == Success(r.value)
    ensures r.Failure? ==> out.Failure? && out.error.kind == r.error
    ensures tx.db.steady && r.Failure? ==> !out.error.rollbackFailed
  {
    var e := tx.RollbackUnlessClosed();
    match r
    case Success(v) => out := Success(v);
    case Failure(k) => out := Failure(ServiceError(k, e.Failure?));
  }
}
