/** The outside world of the imperative code: the database, Docker, the disk and the clock answer its calls
    one after the other, in a way that is fixed beforehand and that the code cannot know. */
module Environments {
  import opened Domain

  /** What becomes of a call; `number` is what else it brings: the time, or the size of a file cut short. */
  datatype Reaction = Reaction(reply: Reply, number: nat)

  class Environment {
    const reactions: nat -> Reaction
    /** How many calls have been answered. */
    var asked: nat

    constructor (reactions: nat -> Reaction)
      ensures this.reactions == reactions && asked == 0
    {
      this.reactions := reactions;
      asked := 0;
    }

    /** The answer to one call. */
    method Ask() returns (r: Reaction)
      modifies this
      ensures asked == old(asked) + 1 && r == reactions(old(asked))
    {
      r := reactions(asked);
      asked := asked + 1;
    }

    /** The time at which the next call will be made. */
    method Clock() returns (now: Time)
      ensures now == reactions(asked).number
    {
      now := reactions(asked).number;
    }

    /** The reply that the n-th call from now on will get. */
    function Next(n: nat): Reply
      reads this
    {
      reactions(asked + n).reply
    }
  }
}
