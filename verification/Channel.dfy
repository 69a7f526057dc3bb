/** The buffered channel between the requests and the workers. */
module Channel {
  import opened Domain

  class JobChannel {
    var items: seq<Job>

    constructor ()
      ensures items == []
    {
      items := [];
    }

    ghost predicate Valid()
      reads this
    {
      |items| <= CHANNEL_CAPACITY
    }

    /** A send that does not wait: a channel of a hundred jobs is full and refuses it. */
    method TrySend(job: Job) returns (sent: bool)
      requires Valid()
      modifies this
      ensures Valid()
      ensures sent <==> |old(items)| < 100
      ensures items == if sent then old(items) + [job] else old(items)
    {
      sent := |items| < CHANNEL_CAPACITY;
      if sent { items := items + [job]; }
    }

    /** A send with a deadline: it can also expire although there is room. */
    method SendUntil(job: Job, expired: bool) returns (sent: bool)
      requires Valid()
      modifies this
      ensures Valid()
      ensures sent <==> !expired && |old(items)| < CHANNEL_CAPACITY
      ensures items == if sent then old(items) + [job] else old(items)
    {
      sent := false;
      if !expired { sent := TrySend(job); }
    }

    method Receive() returns (job: Job)
      requires Valid() && items != []
      modifies this
      ensures Valid() && [job] + items == old(items)
    {
      job := items[0];
      items := items[1..];
    }
  }
}
