/** The blocks that gpr_malloc has handed out and gpr_free has not yet taken back. */
module Memory {

  class Allocator {
    var live: set<object>

    constructor ()
      ensures live == {}
    {
      live := {};
    }

    /** Records a block fresh from gpr_malloc. */
    method Register(block: object)
      modifies this
      ensures live == old(live) + {block}
    {
      live := live + {block};
    }

    /** gpr_free of a live block. */
    method Free(block: object)
      requires block in live
      modifies this
      ensures live == old(live) - {block}
    {
      live := live - {block};
    }
  }
}
