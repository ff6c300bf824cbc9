/** Opening the database: retried with back-off. */
module Connection {
  import opened Domain
  import BackOff

  class Connector {
    const maxRetries: int
    var open: bool

    constructor (maxRetries: int)
      ensures this.maxRetries == maxRetries && !open
    {
      this.maxRetries, this.open := maxRetries, false;
    }

    /**
     * `opens(i)` is whether attempt `i`, counted from zero, succeeds. Without a single attempt
     * allowed, connect reports no error and leaves no connection.
     */
    method Connect(opens: nat -> bool, tooLarge: int64) returns (failed: bool, attempts: nat, waits: seq<int64>)
      requires !open
      modifies this
      ensures maxRetries <= 0 ==> !failed && !open && attempts == 0
      ensures maxRetries > 0 ==> (failed <==> forall i :: 0 <= i < maxRetries ==> !opens(i))
      ensures maxRetries > 0 ==> (open <==> !failed)
      ensures attempts <= Max(maxRetries, 0)
      ensures forall i :: 0 <= i < attempts - (if open then 1 else 0) ==> !opens(i)
      ensures open ==> attempts > 0 && opens(attempts - 1)
      ensures |waits| == attempts - (if open then 1 else 0)
      ensures Sum(waits) == BackOff.TotalWait(SECOND, 60 * SECOND, 0, |waits|, tooLarge)
      ensures |waits| <= 34 ==>
        Sum(waits) == (if |waits| <= 6 then BackOff.Pow2(|waits|) - 1 else 63 + 60 * (|waits| - 6)) * 1_000_000_000
    {
      failed, attempts, waits := false, 0, [];
      var i := 0;
      while i < maxRetries
        invariant 0 <= i <= Max(maxRetries, 0)
        invariant attempts == i == |waits| && !open
        invariant failed <==> i > 0
        invariant forall k :: 0 <= k < i ==> !opens(k)
        invariant Sum(waits) == BackOff.TotalWait(SECOND, 60 * SECOND, 0, i, tooLarge)
      {
        attempts := attempts + 1;
        open := opens(i);
        failed := !open;
        if open {
          break;
        }
        var wait := BackOff.BackOff(SECOND, 60 * SECOND, i, tooLarge);
        SumSnoc(waits, wait);
        waits := waits + [wait];
        i := i + 1;
      }
      if |waits| <= 34 {
        BackOff.DatabaseTotal(|waits|, tooLarge);
      }
    }
  }

  function Max(a: int, b: int): (m: int)
    ensures m >= a && m >= b && (m == a || m == b)
  {
    if a > b then a else b
  }

  function Sum(s: seq<int64>): int {
    if s == [] then 0 else Sum(s[..|s| - 1]) + s[|s| - 1]
  }

  lemma SumSnoc(s: seq<int64>, x: int64)
    ensures Sum(s + [x]) == Sum(s) + x
  {
    assert (s + [x])[..|s|] == s;
  }
}
