/**
 * The two quorum scans of the proposer, as functions of the order in which the loop visits the
 * recorded replies (a Python set has no fixed order), and what they decide whatever that order is.
 */
module ProposerRules {
  import opened Wrappers
  import opened ProposalNumbers
  import opened Messages
  import opened Enumerations

  // ------------------------------------------------------------ promises

  /** The promise loop's running values: whether an assertion failed, the highest number so far, its value. */
  datatype PromiseTally = PromiseTally(failed: bool, highest: ProposalNumber, adopted: Option<string>)

  /** One iteration of the promise loop. */
  function PromiseStep(t: PromiseTally, res: PromiseMessage): PromiseTally
  {
    if t.failed then t
    else
      match res.acceptedProposalNumber
      case None => if res.acceptedValue.None? then t else t.(failed := true)
      case Some(n) =>
        if !Less(t.highest, n) then t
        else if res.acceptedValue.Some? then PromiseTally(false, n, res.acceptedValue)
        else t.(failed := true)
  }

  /** The promise loop over `order`, starting from the sentinel and no value. */
  function ScanPromises(order: seq<PromiseMessage>): PromiseTally
    decreases |order|
  {
    if order == [] then PromiseTally(false, Min(), None)
    else PromiseStep(ScanPromises(order[..|order| - 1]), order[|order| - 1])
  }

  /** The value proposed after the scan: the adopted one if any, else the current one. */
  function Adopt(t: PromiseTally, current: Option<string>): Option<string>
  {
    if t.adopted.Some? then t.adopted else current
  }

  /** A promise reports an earlier acceptance, numbered above the sentinel. */
  predicate ReportsAcceptance(r: PromiseMessage)
  {
    r.acceptedProposalNumber.Some? && Less(Min(), r.acceptedProposalNumber.value)
  }

  /** `r` reports an accepted number at least as high as every number reported in `s`. */
  ghost predicate IsHighest(r: PromiseMessage, s: set<PromiseMessage>)
  {
    r.acceptedProposalNumber.Some? &&
    forall r' :: r' in s && r'.acceptedProposalNumber.Some? ==>
      LessEq(r'.acceptedProposalNumber.value, r.acceptedProposalNumber.value)
  }

  /** The adoption rule: the value of a highest-numbered acceptance if any is reported, else `before`. */
  ghost predicate AdoptsHighest(s: set<PromiseMessage>, before: Option<string>, after: Option<string>)
  {
    && ((exists r :: r in s && ReportsAcceptance(r)) ==>
          exists r :: r in s && ReportsAcceptance(r) && IsHighest(r, s) && after == r.acceptedValue)
    && ((forall r :: r in s ==> !ReportsAcceptance(r)) ==> after == before)
  }

  /** What the promise loop has established after visiting `order`. */
  lemma {:induction false} ScanPromisesInvariant(order: seq<PromiseMessage>)
    ensures var t := ScanPromises(order);
      && (t.failed ==> exists i :: 0 <= i < |order| && !PairConsistent(order[i]))
      && (!t.failed ==>
            && (forall i :: 0 <= i < |order| && order[i].acceptedProposalNumber.Some? ==>
                  LessEq(order[i].acceptedProposalNumber.value, t.highest))
            && (t.adopted.None? ==> t.highest == Min())
            && (t.adopted.Some? ==>
                  Less(Min(), t.highest) &&
                  exists i :: 0 <= i < |order| && order[i].acceptedProposalNumber == Some(t.highest) &&
                              order[i].acceptedValue == t.adopted))
    decreases |order|
  {
    if order != [] {
      var prefix, res := order[..|order| - 1], order[|order| - 1];
      ScanPromisesInvariant(prefix);
      var t0 := ScanPromises(prefix);
      var t := ScanPromises(order);
      assert forall i :: 0 <= i < |prefix| ==> order[i] == prefix[i];
      if !t0.failed && res.acceptedProposalNumber.Some? {
        var n := res.acceptedProposalNumber.value;
        NotLessEqIsGreater(n, t0.highest);
        if Less(t0.highest, n) && !t.failed {
          forall i | 0 <= i < |order| && order[i].acceptedProposalNumber.Some?
            ensures LessEq(order[i].acceptedProposalNumber.value, t.highest)
          {
            if i < |prefix| {
              LessEqTransitive(order[i].acceptedProposalNumber.value, t0.highest, n);
            }
          }
          if t0.adopted.None? {
            assert Less(Min(), t.highest);
          } else {
            LessTransitive(Min(), t0.highest, n);
          }
          assert order[|order| - 1].acceptedProposalNumber == Some(t.highest);
        }
      }
      if t.failed && !t0.failed {
        assert !PairConsistent(order[|order| - 1]);
      }
    }
  }

  /** Visiting one more promise is one more step of the loop. */
  lemma ScanPromisesSnoc(order: seq<PromiseMessage>, res: PromiseMessage)
    ensures ScanPromises(order + [res]) == PromiseStep(ScanPromises(order), res)
  {
    assert (order + [res])[..|order|] == order;
  }

  /** A completed scan over any enumeration of the recorded promises follows the adoption rule. */
  lemma ScanPromisesAdoptsHighest(order: seq<PromiseMessage>, s: set<PromiseMessage>, before: Option<string>)
    requires Enumerates(order, s) && !ScanPromises(order).failed
    ensures AdoptsHighest(s, before, Adopt(ScanPromises(order), before))
  {
    ScanPromisesInvariant(order);
    var t := ScanPromises(order);
    assert forall r :: r in s <==> exists i :: 0 <= i < |order| && order[i] == r;
    if t.adopted.Some? {
      var i :| 0 <= i < |order| && order[i].acceptedProposalNumber == Some(t.highest) &&
                order[i].acceptedValue == t.adopted;
      assert ReportsAcceptance(order[i]) && IsHighest(order[i], s);
    } else {
      forall r | r in s
        ensures !ReportsAcceptance(r)
      {
        var i :| 0 <= i < |order| && order[i] == r;
        if r.acceptedProposalNumber.Some? {
          NotLessEqIsGreater(r.acceptedProposalNumber.value, Min());
        }
      }
    }
  }

  /** The scan fails only when a recorded promise has one of number and value without the other. */
  lemma ScanPromisesFailsOnlyIfMalformed(order: seq<PromiseMessage>, s: set<PromiseMessage>)
    requires Enumerates(order, s) && ScanPromises(order).failed
    ensures exists r :: r in s && !PairConsistent(r)
  {
    ScanPromisesInvariant(order);
    var i :| 0 <= i < |order| && !PairConsistent(order[i]);
    assert order[i] in s;
  }

  /** Once the promise loop has raised, the promises still unvisited change nothing. */
  lemma {:induction false} ScanPromisesFailureIsFinal(order: seq<PromiseMessage>, more: seq<PromiseMessage>)
    requires ScanPromises(order).failed
    ensures ScanPromises(order + more) == ScanPromises(order)
    decreases |more|
  {
    if more != [] {
      var init := more[..|more| - 1];
      assert (order + more)[..|order + more| - 1] == order + init;
      ScanPromisesFailureIsFinal(order, init);
    } else {
      assert order + more == order;
    }
  }

  /** A raising scan of part of a set is the scan of some enumeration of the whole set. */
  lemma FailedScanCompletes(order: seq<PromiseMessage>, rest: set<PromiseMessage>, s: set<PromiseMessage>)
    requires rest <= s && Enumerates(order, s - rest) && ScanPromises(order).failed
    ensures exists full :: Enumerates(full, s) && ScanPromises(full).failed
  {
    var tail := ListOf(rest);
    ScanPromisesFailureIsFinal(order, tail);
    EnumeratesConcat(order, s - rest, tail, rest);
    assert (s - rest) + rest == s;
  }

  /**
   * One iteration of the promise loop over a set: the listing grows by the visited promise, the scan
   * takes one more step, and if that step raises, some listing of the whole set raises too.
   */
  lemma VisitPromise(order: seq<PromiseMessage>, res: PromiseMessage, rest: set<PromiseMessage>, s: set<PromiseMessage>)
    requires rest <= s && Enumerates(order, s - rest) && res in rest
    ensures Enumerates(order + [res], s - (rest - {res}))
    ensures ScanPromises(order + [res]) == PromiseStep(ScanPromises(order), res)
    ensures ScanPromises(order + [res]).failed ==> exists full :: Enumerates(full, s) && ScanPromises(full).failed
  {
    EnumeratesSnoc(order, s - rest, res);
    assert (s - rest) + {res} == s - (rest - {res});
    ScanPromisesSnoc(order, res);
    if ScanPromises(order + [res]).failed {
      FailedScanCompletes(order + [res], rest - {res}, s);
    }
  }

  /**
   * A promise reporting the sentinel number without a value never makes the loop raise: the loop's
   * `>` test against the sentinel it starts from is false, so the value is not inspected.
   */
  lemma {:induction false} SentinelReportNeverRaises(order: seq<PromiseMessage>)
    requires forall i :: 0 <= i < |order| ==>
      PairConsistent(order[i]) || order[i].acceptedProposalNumber == Some(Min())
    ensures !ScanPromises(order).failed
    decreases |order|
  {
    if order != [] {
      var prefix := order[..|order| - 1];
      assert forall i :: 0 <= i < |prefix| ==> prefix[i] == order[i];
      SentinelReportNeverRaises(prefix);
      ScanPromisesInvariant(prefix);
      var res := order[|order| - 1];
      if res.acceptedProposalNumber == Some(Min()) && !PairConsistent(res) {
        // the running maximum is the sentinel or above it, so it is not below the sentinel
        var highest := ScanPromises(prefix).highest;
        LessIrreflexive(Min());
        if highest != Min() && Less(highest, Min()) {
          LessTransitive(Min(), highest, Min());
        }
      }
    }
  }

  // ------------------------------------------------------------ accepted

  /** The accepted loop's effect so far: whether it raised, and the proposer's chosen value and round. */
  datatype AcceptedTally = AcceptedTally(rejected: bool, chosen: Option<string>, maxRound: int)

  /** One iteration: a reply above the round's number rejects; any other reply sets the chosen value. */
  function AcceptedStep(t: AcceptedTally, m: AcceptedMessage, curr: ProposalNumber, value: Option<string>): AcceptedTally
  {
    if t.rejected then t
    else if Less(curr, m.proposalNumber) then AcceptedTally(true, t.chosen, m.proposalNumber.number)
    else t.(chosen := value)
  }

  /** The accepted loop over `order`, for round `curr` proposing `value`, from `chosen0` and `round0`. */
  function ScanAccepted(order: seq<AcceptedMessage>, curr: ProposalNumber, value: Option<string>,
                        chosen0: Option<string>, round0: int): AcceptedTally
    decreases |order|
  {
    if order == [] then AcceptedTally(false, chosen0, round0)
    else AcceptedStep(ScanAccepted(order[..|order| - 1], curr, value, chosen0, round0), order[|order| - 1], curr, value)
  }

  /**
   * What an accepted quorum decides: reject exactly when some reply is above the round's number,
   * then with the round set from such a reply and the chosen value possibly already overwritten;
   * otherwise choose the proposed value.
   */
  ghost predicate AcceptedQuorumRule(s: set<AcceptedMessage>, curr: ProposalNumber, value: Option<string>,
                                     chosen0: Option<string>, round0: int,
                                     rejected: bool, chosen: Option<string>, maxRound: int)
  {
    && (rejected <==> exists m :: m in s && Less(curr, m.proposalNumber))
    && (!rejected ==> chosen == value && maxRound == round0)
    && (rejected ==>
          (chosen == chosen0 || chosen == value) &&
          exists m :: m in s && Less(curr, m.proposalNumber) && maxRound == m.proposalNumber.number)
  }

  /** What the accepted loop has established after visiting `order`. */
  lemma {:induction false} ScanAcceptedInvariant(order: seq<AcceptedMessage>, curr: ProposalNumber,
                                                 value: Option<string>, chosen0: Option<string>, round0: int)
    ensures var t := ScanAccepted(order, curr, value, chosen0, round0);
      && (t.rejected <==> exists i :: 0 <= i < |order| && Less(curr, order[i].proposalNumber))
      && (!t.rejected ==> t.maxRound == round0 && t.chosen == (if order == [] then chosen0 else value))
      && (t.rejected ==>
            (t.chosen == chosen0 || t.chosen == value) &&
            exists i :: 0 <= i < |order| && Less(curr, order[i].proposalNumber) &&
                        t.maxRound == order[i].proposalNumber.number)
    decreases |order|
  {
    if order != [] {
      var prefix := order[..|order| - 1];
      ScanAcceptedInvariant(prefix, curr, value, chosen0, round0);
      assert forall i :: 0 <= i < |prefix| ==> order[i] == prefix[i];
    }
  }

  /** Visiting one more reply is one more step of the loop. */
  lemma ScanAcceptedSnoc(order: seq<AcceptedMessage>, m: AcceptedMessage, curr: ProposalNumber,
                         value: Option<string>, chosen0: Option<string>, round0: int)
    ensures ScanAccepted(order + [m], curr, value, chosen0, round0)
         == AcceptedStep(ScanAccepted(order, curr, value, chosen0, round0), m, curr, value)
  {
    assert (order + [m])[..|order|] == order;
  }

  /** A scan over any enumeration of a non-empty reply set follows the quorum rule. */
  lemma ScanAcceptedFollowsRule(order: seq<AcceptedMessage>, s: set<AcceptedMessage>, curr: ProposalNumber,
                                value: Option<string>, chosen0: Option<string>, round0: int)
    requires Enumerates(order, s) && s != {}
    ensures var t := ScanAccepted(order, curr, value, chosen0, round0);
      AcceptedQuorumRule(s, curr, value, chosen0, round0, t.rejected, t.chosen, t.maxRound)
  {
    ScanAcceptedInvariant(order, curr, value, chosen0, round0);
    assert forall m :: m in s <==> exists i :: 0 <= i < |order| && order[i] == m;
    var x :| x in s;
    assert order != [];
  }

  /** Once the scan has rejected, the replies still unvisited change nothing (the loop has raised). */
  lemma {:induction false} ScanAcceptedRejectionIsFinal(order: seq<AcceptedMessage>, more: seq<AcceptedMessage>,
                                                        curr: ProposalNumber, value: Option<string>,
                                                        chosen0: Option<string>, round0: int)
    requires ScanAccepted(order, curr, value, chosen0, round0).rejected
    ensures ScanAccepted(order + more, curr, value, chosen0, round0) == ScanAccepted(order, curr, value, chosen0, round0)
    decreases |more|
  {
    if more != [] {
      var init := more[..|more| - 1];
      assert (order + more)[..|order + more| - 1] == order + init;
      ScanAcceptedRejectionIsFinal(order, init, curr, value, chosen0, round0);
    } else {
      assert order + more == order;
    }
  }

  /** A rejecting scan of part of a set is the scan of some enumeration of the whole set. */
  lemma RejectedScanCompletes(order: seq<AcceptedMessage>, rest: set<AcceptedMessage>, s: set<AcceptedMessage>,
                              curr: ProposalNumber, value: Option<string>, chosen0: Option<string>, round0: int)
    requires rest <= s && Enumerates(order, s - rest)
    requires ScanAccepted(order, curr, value, chosen0, round0).rejected
    ensures exists full :: (Enumerates(full, s) &&
      ScanAccepted(full, curr, value, chosen0, round0) == ScanAccepted(order, curr, value, chosen0, round0))
  {
    var tail := ListOf(rest);
    ScanAcceptedRejectionIsFinal(order, tail, curr, value, chosen0, round0);
    EnumeratesConcat(order, s - rest, tail, rest);
    assert (s - rest) + rest == s;
  }

  /**
   * One iteration of the accepted loop over a set: the listing grows by the visited reply, the scan
   * takes one more step, and if that step rejects, the result is that of some listing of the whole set.
   */
  lemma VisitReply(order: seq<AcceptedMessage>, m: AcceptedMessage, rest: set<AcceptedMessage>, s: set<AcceptedMessage>,
                   curr: ProposalNumber, value: Option<string>, chosen0: Option<string>, round0: int)
    requires rest <= s && Enumerates(order, s - rest) && m in rest
    ensures Enumerates(order + [m], s - (rest - {m}))
    ensures ScanAccepted(order + [m], curr, value, chosen0, round0)
         == AcceptedStep(ScanAccepted(order, curr, value, chosen0, round0), m, curr, value)
    ensures ScanAccepted(order + [m], curr, value, chosen0, round0).rejected ==>
      exists full :: (Enumerates(full, s) &&
        ScanAccepted(full, curr, value, chosen0, round0) == ScanAccepted(order + [m], curr, value, chosen0, round0))
  {
    EnumeratesSnoc(order, s - rest, m);
    assert (s - rest) + {m} == s - (rest - {m});
    ScanAcceptedSnoc(order, m, curr, value, chosen0, round0);
    if ScanAccepted(order + [m], curr, value, chosen0, round0).rejected {
      RejectedScanCompletes(order + [m], rest - {m}, s, curr, value, chosen0, round0);
    }
  }

  /**
   * Two accepted replies, one at the current number and one above it (as proposer-1 receives at the
   * end of test_case_2), reject the round whatever the order; visited in the order shown, the first
   * reply sets the current value as chosen before the second rejects, and in the other order
   * nothing is chosen.
   */
  lemma RejectedRoundMayStillChoose(curr: ProposalNumber, value: string, atCurr: AcceptedMessage,
                                    above: AcceptedMessage, round0: int)
    requires atCurr.proposalNumber == curr && Less(curr, above.proposalNumber)
    ensures ScanAccepted([atCurr, above], curr, Some(value), None, round0)
         == AcceptedTally(true, Some(value), above.proposalNumber.number)
    ensures ScanAccepted([above, atCurr], curr, Some(value), None, round0)
         == AcceptedTally(true, None, above.proposalNumber.number)
  {
    LessIrreflexive(curr);
    assert [atCurr][..0] == [] && [above][..0] == [];
    assert ScanAccepted([atCurr], curr, Some(value), None, round0) == AcceptedTally(false, Some(value), round0);
    assert ScanAccepted([above], curr, Some(value), None, round0) == AcceptedTally(true, None, above.proposalNumber.number);
    assert [atCurr, above][..1] == [atCurr] && [above, atCurr][..1] == [above];
  }
}
