/**
 * The `account` object literal of script.js:234-247: an owner, a movements
 * list, and a `latest` accessor property whose getter reads the last movement
 * and whose setter appends one.
 */
module LatestAccessor {
  import opened Wrappers

  class AccountLiteral {
    var owner: string
    var movements: seq<int>

    constructor (owner: string, movements: seq<int>)
      ensures this.owner == owner && this.movements == movements
    {
      this.owner := owner;
      this.movements := movements;
    }

    /**
     * The `latest` getter, `slice(-1).pop()`: the last movement, or `undefined`
     * when there is none. Being a function, it cannot change the list.
     */
    function Latest(): Option<int>
      reads this
    {
      if movements == [] then None else Some(movements[|movements| - 1])
    }

    /** The `latest` setter: pushes the value, which the getter then reads back. */
    method SetLatest(mov: int)
      modifies this
      ensures movements == old(movements) + [mov]
      ensures owner == old(owner)
      ensures Latest() == Some(mov)
    {
      movements := movements + [mov];
    }
  }

  /** The reads and the write at script.js:249-252. */
  method LatestRun() returns (before: Option<int>, after: seq<int>)
    ensures before == Some(500)
    ensures after == [200, 300, 400, 500, 50]
  {
    var account := new AccountLiteral("Jonase", [200, 300, 400, 500]);
    before := account.Latest();
    account.SetLatest(50);
    after := account.movements;
  }
}
