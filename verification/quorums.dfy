/** Majority quorums over a fixed number of acceptors. */
module Quorums {
  import opened Wrappers
  import opened Messages

  /** The proposer's quorum size: a simple majority, refused below three acceptors. */
  function QuorumSize(numAcceptors: int): (r: Result<nat, Error>)
    ensures r.Err? <==> numAcceptors < 3
    ensures r.Err? ==> r.error == PreconditionFailed
    // the smallest size that is more than half
    ensures r.Ok? ==> numAcceptors < 2 * r.value && 2 * (r.value - 1) <= numAcceptors
    ensures r.Ok? ==> 2 <= r.value <= numAcceptors
  {
    if numAcceptors < 3 then Err(PreconditionFailed) else Ok(numAcceptors / 2 + 1)
  }

  /** Any two quorums drawn from the same acceptors share an acceptor. */
  lemma QuorumsIntersect<T>(acceptors: set<T>, q1: set<T>, q2: set<T>)
    requires QuorumSize(|acceptors|).Ok?
    requires q1 <= acceptors && |q1| == QuorumSize(|acceptors|).value
    requires q2 <= acceptors && |q2| == QuorumSize(|acceptors|).value
    ensures exists a :: a in q1 && a in q2
  {
    SubsetCardinality(q1 + q2, acceptors);
    assert |q1 * q2| > 0;
    var a :| a in q1 * q2;
  }

  lemma {:induction false} SubsetCardinality<T>(small: set<T>, big: set<T>)
    requires small <= big
    ensures |small| <= |big|
    decreases |small|
  {
    if small != {} {
      var x :| x in small;
      SubsetCardinality(small - {x}, big - {x});
    }
  }
}
