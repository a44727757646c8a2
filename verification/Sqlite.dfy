// A database connection as its users see it: committed contents, and those of the open
// transaction if there is one (src/database/sqlite_connection.cpp).
module Sqlite {
  import opened Common

  datatype Connection<T> = Connection(committed: T, tx: Option<T>)

  // What statements on this connection read.
  function Visible<T>(c: Connection<T>): T {
    match c.tx case Some(t) => t case None => c.committed
  }

  // A statement outside a transaction commits at once.
  function Write<T>(c: Connection<T>, t: T): Connection<T> {
    if c.tx.Some? then c.(tx := Some(t)) else c.(committed := t)
  }

  // Closing a connection, or the death of its process, drops the open transaction.
  function Reopened<T>(c: Connection<T>): Connection<T> { c.(tx := None) }
}
