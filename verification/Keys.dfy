/** The unique `idempotency_key` column of the `jobs` table, and the answer to a submission. */
module Keys {
  import opened Model

  type Column = map<JobId, Option<string>>

  function Owners(column: Column, key: string): set<JobId> {
    set j | j in column && column[j] == Some(key)
  }

  /** The unique index: NULLs are not compared. */
  predicate UniqueKeys(column: Column) {
    forall i, j :: i in column && j in column && column[i].Some? && column[i] == column[j] ==> i == j
  }

  datatype Receipt = Receipt(job: JobId, duplicate: bool)
}
