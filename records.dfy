/** The row shape of the `users` table: what `SELECT id, name, email FROM users` yields per row. */
module Records {

  /** One user row. The id is assigned by the store (an auto-increment key), so it is never negative. */
  datatype Record = Record(id: nat, name: string, email: string)
}
