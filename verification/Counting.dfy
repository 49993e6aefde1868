// How often a number occurs in a log.
module Counting {
  function Count(log: seq<nat>, x: nat): nat {
    if log == [] then 0 else Count(log[..|log| - 1], x) + if log[|log| - 1] == x then 1 else 0
  }

  lemma CountAdds(log: seq<nat>, last: nat, x: nat)
    ensures Count(log + [last], x) == Count(log, x) + if last == x then 1 else 0
  {
    assert (log + [last])[..|log|] == log;
  }
}
