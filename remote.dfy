/**
 * What the hosted database answers. Every read and write of the site is a
 * single request; the model receives its answer as a parameter instead of
 * making the call.
 */
module Remote {
  import opened Wrappers

  /** The answer to a `select`: the rows (which the client library may give as `null`), an error object, or an exception. */
  datatype Reply<T> = Data(rows: Option<T>) | Error(code: string) | Thrown

  /** The answer to a `select ... .single()`: exactly one row, an error object, or an exception. */
  datatype Single<T> = Found(row: T) | Failure(code: string) | Threw

  /**
   * The answer to an `insert`, `update` or `delete`. An error object is
   * re-thrown into the same `catch` block as an exception, so both are `Rejected`.
   */
  datatype Ack = Done | Rejected(code: string)

  /** The rows a successful `select` delivers: `data || []`. */
  function RowsOrEmpty<T>(reply: Reply<seq<T>>): seq<T>
    requires reply.Data?
  {
    reply.rows.GetOr([])
  }

  /**
   * The admin lists' fetch: `if (error) log else setList(data || [])`, with an
   * exception caught and logged. A failure keeps what is displayed.
   */
  function AdminFetch<T>(current: seq<T>, reply: Reply<seq<T>>): (r: seq<T>)
    ensures reply.Data? && reply.rows.Some? ==> r == reply.rows.value
    ensures reply == Data(None) ==> r == []
    ensures !reply.Data? ==> r == current
  {
    if reply.Data? then RowsOrEmpty(reply) else current
  }

  /**
   * The public sections' fetch: on an error, an exception or `null` data the
   * built-in sample list is shown; any array the database returns, `[]`
   * included, is shown as it is.
   */
  function SectionFetch<T>(reply: Reply<seq<T>>, mock: seq<T>): (r: seq<T>)
    ensures reply.Data? && reply.rows.Some? ==> r == reply.rows.value
    ensures reply == Data(Some([])) ==> r == []
    ensures !(reply.Data? && reply.rows.Some?) ==> r == mock
  {
    match reply
    case Data(Some(rows)) => rows
    case _ => mock
  }

  /** A later successful fetch replaces whatever earlier fetches left: last fetch wins, nothing is merged. */
  lemma AdminFetchLastWins<T>(current: seq<T>, first: Reply<seq<T>>, second: Reply<seq<T>>)
    requires second.Data?
    ensures AdminFetch(AdminFetch(current, first), second) == AdminFetch(current, second)
  {
  }
}
