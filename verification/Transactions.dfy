/** Transactions over a table: begin, run a function, then commit or roll back. */
module Transactions {
  import opened Domain
  import opened Environments

  datatype TxResult<+T, +E> = Commit(table: T) | Rollback(error: E)

  datatype TxOutcome<+E> = Committed | Failed(error: E) | Broken

  /** A table that is reached either directly or through the transaction of the caller's context. */
  class TxManager<T, E> {
    const env: Environment
    var table: T

    constructor (env: Environment, table: T)
      ensures this.env == env && this.table == table
    {
      this.env, this.table := env, table;
    }

    /** The function works on its own version of the table, once the transaction has begun. An error of
        the function rolls back and is the result; a commit may fail without effect, or after taking it. */
    method WithTx(fn: T -> TxResult<T, E>) returns (r: TxOutcome<E>, reply: Reply)
      modifies this, env
      ensures reply == if old(env.Next(0)).Done? && fn(old(table)).Commit? then old(env.Next(1)) else Refused
      ensures r == if !old(env.Next(0)).Done? then Broken
                   else if fn(old(table)).Rollback? then Failed(fn(old(table)).error)
                   else if reply.Done? then Committed else Broken
      ensures table == if reply.TookEffect() then fn(old(table)).table else old(table)
      ensures r == Committed ==> env.asked == old(env.asked) + 2
    {
      var begun := env.Ask();
      if !begun.reply.Done? { return Broken, Refused; }
      var version := table;
      match fn(version) {
        case Rollback(e) => return Failed(e), Refused;
        case Commit(next) =>
          var ended := env.Ask();
          reply := ended.reply;
          if reply.TookEffect() { table := next; }
          r := if reply.Done? then Committed else Broken;
      }
    }

    /** Without a transaction manager the function runs on the table itself, and its statements can fail
        one by one. */
    method Direct(fn: T -> TxResult<T, E>) returns (r: TxOutcome<E>, reply: Reply)
      modifies this, env
      ensures env.asked == old(env.asked) + 1
      ensures reply == if fn(old(table)).Commit? then old(env.Next(0)) else Refused
      ensures r == if !old(env.Next(0)).Done? then Broken
                   else if fn(old(table)).Rollback? then Failed(fn(old(table)).error) else Committed
      ensures table == if reply.TookEffect() then fn(old(table)).table else old(table)
    {
      var said := env.Ask();
      match fn(table) {
        case Rollback(e) => return if said.reply.Done? then Failed(e) else Broken, Refused;
        case Commit(next) =>
          reply := said.reply;
          if reply.TookEffect() { table := next; }
          r := if reply.Done? then Committed else Broken;
      }
    }
  }
}
