// The first index at which a condition holds: the value every search loop of the
// simulator computes.
module Search {
  function First(hit: nat -> bool, from: nat, limit: nat): (k: nat)
    requires from <= limit
    ensures from <= k <= limit
    ensures k < limit ==> hit(k)
    ensures forall j :: from <= j < k ==> !hit(j)
    decreases limit - from
  {
    if from == limit then limit
    else if hit(from) then from
    else First(hit, from + 1, limit)
  }
}
