/** PostgreSQL row locks: the modes this repository's statements take and which of them conflict
    (PostgreSQL manual, section 13.3.2). FOR SHARE is not taken by any statement and is left out. */
module RowLocks {

  datatype Mode =
    | KeyShare     // taken on a referenced row by a foreign-key check
    | NoKeyUpdate  // taken by an UPDATE that leaves the key alone
    | Update       // taken by FOR UPDATE and by DELETE; also stands for an uncommitted new key

  predicate Conflicts(a: Mode, b: Mode) {
    match (a, b)
    case (KeyShare, KeyShare) => false
    case (KeyShare, NoKeyUpdate) => false
    case (NoKeyUpdate, KeyShare) => false
    case _ => true
  }

  datatype Lock<R(==)> = Lock(row: R, mode: Mode)

  function ForUpdate<R(==)>(row: R): Lock<R> { Lock(row, Update) }
  function ForNoKeyUpdate<R(==)>(row: R): Lock<R> { Lock(row, NoKeyUpdate) }
  function ForKeyShare<R(==)>(row: R): Lock<R> { Lock(row, KeyShare) }

  predicate Clash<R(==)>(a: Lock<R>, b: Lock<R>) {
    a.row == b.row && Conflicts(a.mode, b.mode)
  }

  /** Two transactions may hold these locks at the same time. */
  predicate Compatible<R(==)>(a: set<Lock<R>>, b: set<Lock<R>>) {
    forall x, y | x in a && y in b :: !Clash(x, y)
  }
}
