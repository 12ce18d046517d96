/** The proposer role: a round counter, a value set once by the client, and the two reply sets. */
module Proposers {
  import opened Wrappers
  import opened ProposalNumbers
  import opened Messages
  import opened Enumerations
  import opened Quorums
  import opened ProposerRules

  /** A snapshot of a proposer's fields. */
  datatype ProposerState = ProposerState(
    serverId: string,
    quorumSize: nat,
    currProposedValue: Option<string>,
    currProposedNumber: Option<ProposalNumber>,
    chosenValue: Option<string>,
    maxRoundNumber: int,
    promises: set<PromiseMessage>,
    accepted: set<AcceptedMessage>)

  function InitialProposer(serverId: string, quorumSize: nat): ProposerState
  {
    ProposerState(serverId, quorumSize, None, None, None, 0, {}, {})
  }

  /**
   * `on_promise_message` took `s` to `t` with `outcome`: the promise joins the set; when the set has
   * exactly the quorum size, the recorded promises are scanned and the value of the highest reported
   * acceptance, if any, replaces the proposed value; the scan raises only when some order of visiting
   * the set makes it raise, which needs a promise with only one of number and value.
   */
  ghost predicate PromiseHandled(s: ProposerState, msg: PromiseMessage, t: ProposerState, outcome: Outcome<Error>)
  {
    var all := s.promises + {msg};
    && t == s.(promises := all, currProposedValue := t.currProposedValue)
    && (|all| != s.quorumSize ==> outcome == Pass && t.currProposedValue == s.currProposedValue)
    && (|all| == s.quorumSize && outcome.Pass? ==>
          && (exists order :: Enumerates(order, all) && !ScanPromises(order).failed &&
                              t.currProposedValue == Adopt(ScanPromises(order), s.currProposedValue))
          && AdoptsHighest(all, s.currProposedValue, t.currProposedValue))
    && (outcome.Fail? ==>
          && |all| == s.quorumSize
          && outcome.error == PreconditionFailed
          && t.currProposedValue == s.currProposedValue
          && (exists order :: Enumerates(order, all) && ScanPromises(order).failed)
          && exists r :: r in all && !PairConsistent(r))
  }

  /**
   * `on_accepted_message` took `s` to `t` with `outcome`: the reply joins the set; when the set has
   * exactly the quorum size, the round is rejected if some recorded reply is above its number, and
   * otherwise the proposed value is chosen.
   */
  ghost predicate AcceptedHandled(s: ProposerState, msg: AcceptedMessage, t: ProposerState, outcome: Outcome<Error>)
  {
    var all := s.accepted + {msg};
    && t == s.(accepted := all, chosenValue := t.chosenValue, maxRoundNumber := t.maxRoundNumber)
    && (|all| != s.quorumSize ==>
          outcome == Pass && t.chosenValue == s.chosenValue && t.maxRoundNumber == s.maxRoundNumber)
    && (|all| == s.quorumSize && s.currProposedNumber.None? ==>
          outcome == Fail(PreconditionFailed) && t.chosenValue == s.chosenValue && t.maxRoundNumber == s.maxRoundNumber)
    && (|all| == s.quorumSize && s.currProposedNumber.Some? ==>
          var curr := s.currProposedNumber.value;
          && (outcome == Pass || outcome == Fail(Rejected))
          && (exists order :: Enumerates(order, all) &&
                ScanAccepted(order, curr, s.currProposedValue, s.chosenValue, s.maxRoundNumber)
                == AcceptedTally(outcome.Fail?, t.chosenValue, t.maxRoundNumber))
          && AcceptedQuorumRule(all, curr, s.currProposedValue, s.chosenValue, s.maxRoundNumber,
                                outcome.Fail?, t.chosenValue, t.maxRoundNumber))
  }

  /** While the round counter equals the current round's number, handling a reply never lowers it. */
  lemma RejectionNeverLowersRound(s: ProposerState, msg: AcceptedMessage, t: ProposerState, outcome: Outcome<Error>)
    requires AcceptedHandled(s, msg, t, outcome)
    requires s.currProposedNumber.Some? && s.currProposedNumber.value.number == s.maxRoundNumber
    ensures s.maxRoundNumber <= t.maxRoundNumber
    ensures outcome == Fail(Rejected) ==> exists m :: m in t.accepted && Less(s.currProposedNumber.value, m.proposalNumber)
  {
  }

  /** The quorum test counts distinct messages, so two different promises from one acceptor make a quorum of two. */
  lemma QuorumCountsMessagesNotSenders()
    ensures var s := {PromiseMessage("acceptor-1", None, None),
                      PromiseMessage("acceptor-1", Some(ProposalNumber(1, "proposer-1")), Some("foo"))};
      |s| == 2 && (set r | r in s :: r.fromServerId) == {"acceptor-1"}
  {
    var a := PromiseMessage("acceptor-1", None, None);
    var b := PromiseMessage("acceptor-1", Some(ProposalNumber(1, "proposer-1")), Some("foo"));
    assert a != b;
  }

  // Each way out of the two handlers, stated once so that the handlers only have to pick one.

  lemma PromiseBelowQuorum(s: ProposerState, msg: PromiseMessage)
    requires |s.promises + {msg}| != s.quorumSize
    ensures PromiseHandled(s, msg, s.(promises := s.promises + {msg}), Pass)
  {
  }

  lemma PromiseQuorumScanned(s: ProposerState, msg: PromiseMessage, adopted: Option<string>)
    requires |s.promises + {msg}| == s.quorumSize
    requires exists order :: (Enumerates(order, s.promises + {msg}) &&
      ScanPromises(order) == PromiseTally(false, ScanPromises(order).highest, adopted))
    ensures PromiseHandled(s, msg, s.(promises := s.promises + {msg},
                                      currProposedValue := if adopted.Some? then adopted else s.currProposedValue), Pass)
  {
    var order :| Enumerates(order, s.promises + {msg}) &&
      ScanPromises(order) == PromiseTally(false, ScanPromises(order).highest, adopted);
    ScanPromisesAdoptsHighest(order, s.promises + {msg}, s.currProposedValue);
  }

  lemma PromiseQuorumRaised(s: ProposerState, msg: PromiseMessage)
    requires |s.promises + {msg}| == s.quorumSize
    requires exists order :: Enumerates(order, s.promises + {msg}) && ScanPromises(order).failed
    ensures PromiseHandled(s, msg, s.(promises := s.promises + {msg}), Fail(PreconditionFailed))
  {
    var order :| Enumerates(order, s.promises + {msg}) && ScanPromises(order).failed;
    ScanPromisesFailsOnlyIfMalformed(order, s.promises + {msg});
  }

  lemma AcceptedBelowQuorum(s: ProposerState, msg: AcceptedMessage)
    requires |s.accepted + {msg}| != s.quorumSize
    ensures AcceptedHandled(s, msg, s.(accepted := s.accepted + {msg}), Pass)
  {
  }

  lemma AcceptedQuorumBeforePrepare(s: ProposerState, msg: AcceptedMessage)
    requires |s.accepted + {msg}| == s.quorumSize && s.currProposedNumber.None?
    ensures AcceptedHandled(s, msg, s.(accepted := s.accepted + {msg}), Fail(PreconditionFailed))
  {
  }

  lemma AcceptedQuorumScanned(s: ProposerState, msg: AcceptedMessage, tally: AcceptedTally)
    requires |s.accepted + {msg}| == s.quorumSize && s.currProposedNumber.Some?
    requires s.currProposedNumber.value.number <= s.maxRoundNumber
    requires exists order :: (Enumerates(order, s.accepted + {msg}) &&
      tally == ScanAccepted(order, s.currProposedNumber.value, s.currProposedValue, s.chosenValue, s.maxRoundNumber))
    ensures AcceptedHandled(s, msg, s.(accepted := s.accepted + {msg}, chosenValue := tally.chosen, maxRoundNumber := tally.maxRound),
                            if tally.rejected then Fail(Rejected) else Pass)
    ensures s.currProposedNumber.value.number <= tally.maxRound
  {
    var order :| Enumerates(order, s.accepted + {msg}) &&
      tally == ScanAccepted(order, s.currProposedNumber.value, s.currProposedValue, s.chosenValue, s.maxRoundNumber);
    ScanAcceptedFollowsRule(order, s.accepted + {msg}, s.currProposedNumber.value, s.currProposedValue,
                            s.chosenValue, s.maxRoundNumber);
    ScanAcceptedInvariant(order, s.currProposedNumber.value, s.currProposedValue, s.chosenValue, s.maxRoundNumber);
  }

  /**
   * The numbers a proposer has handed out carry its server id, increase strictly, are positive and
   * no larger than its round counter; the last one is the current round's.
   */
  ghost predicate IssuedInOrder(issued: seq<ProposalNumber>, serverId: string, maxRound: int,
                                curr: Option<ProposalNumber>)
  {
    && (forall i :: 0 <= i < |issued| ==> issued[i].serverId == serverId && 1 <= issued[i].number <= maxRound)
    && (forall i, j :: 0 <= i < j < |issued| ==> Less(issued[i], issued[j]))
    && (curr.None? <==> issued == [])
    && (curr.Some? ==> curr.value == issued[|issued| - 1])
  }

  /** Raising the round counter to at least the current round's number keeps the handed-out numbers in order. */
  lemma IssuedInOrderRaised(issued: seq<ProposalNumber>, serverId: string, maxRound: int, raised: int,
                            curr: Option<ProposalNumber>)
    requires IssuedInOrder(issued, serverId, maxRound, curr)
    requires curr.Some? && curr.value.number <= raised
    ensures IssuedInOrder(issued, serverId, raised, curr)
  {
    forall i | 0 <= i < |issued| - 1
      ensures issued[i].number <= raised
    {
      assert Less(issued[i], issued[|issued| - 1]);
    }
  }

  // What a caller can conclude from the two handlers in the cases the tests exercise.

  /** Below the quorum size a promise is only recorded. */
  lemma PromiseRecorded(s: ProposerState, msg: PromiseMessage, t: ProposerState, outcome: Outcome<Error>)
    requires PromiseHandled(s, msg, t, outcome) && |s.promises + {msg}| != s.quorumSize
    ensures outcome == Pass && t == s.(promises := s.promises + {msg})
  {
  }

  /** A quorum of well-formed promises that report no acceptance keeps the client's value. */
  lemma PromiseQuorumKeepsValue(s: ProposerState, msg: PromiseMessage, t: ProposerState, outcome: Outcome<Error>)
    requires PromiseHandled(s, msg, t, outcome) && |s.promises + {msg}| == s.quorumSize
    requires forall r :: r in s.promises + {msg} ==> PairConsistent(r) && !ReportsAcceptance(r)
    ensures outcome == Pass && t == s.(promises := s.promises + {msg})
  {
  }

  /** A quorum of well-formed promises in which one reports an acceptance adopts that value. */
  lemma PromiseQuorumAdoptsReported(s: ProposerState, msg: PromiseMessage, t: ProposerState,
                                    outcome: Outcome<Error>, r: PromiseMessage)
    requires PromiseHandled(s, msg, t, outcome) && |s.promises + {msg}| == s.quorumSize
    requires forall r' :: r' in s.promises + {msg} ==> PairConsistent(r')
    requires r in s.promises + {msg} && ReportsAcceptance(r)
    requires forall r' :: r' in s.promises + {msg} && r' != r ==> r'.acceptedProposalNumber.None?
    ensures outcome == Pass && t == s.(promises := s.promises + {msg}, currProposedValue := r.acceptedValue)
  {
  }

  /**
   * A promise that reports the sentinel number without a value, among well-formed ones, never makes
   * the handler fail: the loop's `>` test against the sentinel is false, so its value is not checked.
   */
  lemma SentinelReportDoesNotFail(s: ProposerState, msg: PromiseMessage, t: ProposerState, outcome: Outcome<Error>)
    requires PromiseHandled(s, msg, t, outcome)
    requires forall r :: r in s.promises + {msg} ==> PairConsistent(r) || r.acceptedProposalNumber == Some(Min())
    ensures outcome == Pass
  {
    if outcome.Fail? {
      var order :| Enumerates(order, s.promises + {msg}) && ScanPromises(order).failed;
      assert forall i :: 0 <= i < |order| ==> order[i] in s.promises + {msg};
      SentinelReportNeverRaises(order);
    }
  }

  /**
   * Handling a promise never moves the round counter, whatever number the promise reports, so the
   * next `get_prepare_message` opens `(counter + 1, id)` even when that is below a number this
   * proposer has just been told about.
   */
  lemma NextPrepareMayTrailReportedNumber(s: ProposerState, msg: PromiseMessage, t: ProposerState,
                                          outcome: Outcome<Error>)
    requires PromiseHandled(s, msg, t, outcome)
    requires msg.acceptedProposalNumber.Some? && s.maxRoundNumber + 1 < msg.acceptedProposalNumber.value.number
    ensures t.maxRoundNumber == s.maxRoundNumber
    ensures Less(ProposalNumber(t.maxRoundNumber + 1, t.serverId), msg.acceptedProposalNumber.value)
    ensures msg in t.promises
  {
  }

  /** Below the quorum size a reply is only recorded. */
  lemma AcceptedRecorded(s: ProposerState, msg: AcceptedMessage, t: ProposerState, outcome: Outcome<Error>)
    requires AcceptedHandled(s, msg, t, outcome) && |s.accepted + {msg}| != s.quorumSize
    ensures outcome == Pass && t == s.(accepted := s.accepted + {msg})
  {
  }

  /** A quorum of replies none above the round's number chooses the proposed value. */
  lemma AcceptedQuorumChooses(s: ProposerState, msg: AcceptedMessage, t: ProposerState, outcome: Outcome<Error>)
    requires AcceptedHandled(s, msg, t, outcome) && |s.accepted + {msg}| == s.quorumSize
    requires s.currProposedNumber.Some?
    requires forall m :: m in s.accepted + {msg} ==> !Less(s.currProposedNumber.value, m.proposalNumber)
    ensures outcome == Pass && t == s.(accepted := s.accepted + {msg}, chosenValue := s.currProposedValue)
  {
  }

  /** A quorum with a reply above the round's number rejects, taking that reply's round. */
  lemma AcceptedQuorumRejects(s: ProposerState, msg: AcceptedMessage, t: ProposerState,
                              outcome: Outcome<Error>, m: AcceptedMessage)
    requires AcceptedHandled(s, msg, t, outcome) && |s.accepted + {msg}| == s.quorumSize
    requires s.currProposedNumber.Some?
    requires m in s.accepted + {msg} && Less(s.currProposedNumber.value, m.proposalNumber)
    requires forall m' :: m' in s.accepted + {msg} && Less(s.currProposedNumber.value, m'.proposalNumber) ==> m' == m
    ensures outcome == Fail(Rejected)
    ensures t == s.(accepted := s.accepted + {msg}, chosenValue := t.chosenValue, maxRoundNumber := m.proposalNumber.number)
    ensures t.chosenValue == s.chosenValue || t.chosenValue == s.currProposedValue
  {
  }

  /** A proposer. The reply sets are never cleared, so each quorum test fires only while its set has exactly the quorum size. */
  class Proposer {
    const serverId: string
    const quorumSize: nat
    ghost const numAcceptors: int
    var currProposedValue: Option<string>
    var currProposedNumber: Option<ProposalNumber>
    var chosenValue: Option<string>
    var maxRoundNumber: int
    var promises: set<PromiseMessage>
    var accepted: set<AcceptedMessage>
    /** The proposal numbers handed out so far, oldest first. */
    ghost var issued: seq<ProposalNumber>

    function State(): ProposerState
      reads this
    {
      ProposerState(serverId, quorumSize, currProposedValue, currProposedNumber, chosenValue,
                    maxRoundNumber, promises, accepted)
    }

    ghost predicate Valid()
      reads this
    {
      && QuorumSize(numAcceptors) == Ok(quorumSize)
      && 0 <= maxRoundNumber
      && IssuedInOrder(issued, serverId, maxRoundNumber, currProposedNumber)
    }

    constructor Init(serverId: string, numAcceptors: int)
      requires 3 <= numAcceptors
      ensures Valid() && this.numAcceptors == numAcceptors && issued == []
      ensures State() == InitialProposer(serverId, QuorumSize(numAcceptors).value)
    {
      this.serverId := serverId;
      this.numAcceptors := numAcceptors;
      quorumSize := QuorumSize(numAcceptors).value;
      currProposedValue := None;
      currProposedNumber := None;
      chosenValue := None;
      maxRoundNumber := 0;
      promises := {};
      accepted := {};
      issued := [];
    }

    /** `Proposer(server_id, num_acceptors)`: refused below three acceptors. */
    static method Create(serverId: string, numAcceptors: int) returns (r: Result<Proposer, Error>)
      ensures r.Err? <==> numAcceptors < 3
      ensures r.Err? ==> r.error == PreconditionFailed
      ensures r.Ok? ==> fresh(r.value) && r.value.Valid() && r.value.numAcceptors == numAcceptors
      ensures r.Ok? ==> r.value.State() == InitialProposer(serverId, QuorumSize(numAcceptors).value)
      ensures r.Ok? ==> r.value.issued == []
    {
      var q := QuorumSize(numAcceptors);
      if q.Err? {
        return Err(q.error);
      }
      var p := new Proposer.Init(serverId, numAcceptors);
      return Ok(p);
    }

    /** The client's value; a second call fails. */
    method ProposeValue(value: string) returns (outcome: Outcome<Error>)
      requires Valid()
      modifies this
      ensures Valid() && issued == old(issued)
      ensures outcome.Pass? <==> old(currProposedValue).None?
      ensures outcome.Fail? ==> outcome.error == PreconditionFailed && State() == old(State())
      ensures outcome.Pass? ==> State() == old(State()).(currProposedValue := Some(value))
    {
      if currProposedValue.Some? {
        return Fail(PreconditionFailed);
      }
      currProposedValue := Some(value);
      return Pass;
    }

    /** Opens a new round one above the round counter. */
    method GetPrepareMessage() returns (msg: PrepareMessage)
      requires Valid()
      modifies this
      ensures Valid()
      ensures maxRoundNumber == old(maxRoundNumber) + 1
      ensures msg.proposalNumber == ProposalNumber(maxRoundNumber, serverId)
      ensures State() == old(State()).(maxRoundNumber := maxRoundNumber, currProposedNumber := Some(msg.proposalNumber))
      // every number this proposer has handed out before is smaller
      ensures forall p :: p in old(issued) ==> Less(p, msg.proposalNumber)
      ensures issued == old(issued) + [msg.proposalNumber]
    {
      maxRoundNumber := maxRoundNumber + 1;
      currProposedNumber := Some(ProposalNumber(maxRoundNumber, serverId));
      issued := issued + [currProposedNumber.value];
      msg := PrepareMessage(currProposedNumber.value);
    }

    /** The accept message of the current round; fails before a round is open or a value is set. */
    method GetAcceptMessage() returns (r: Result<AcceptMessage, Error>)
      ensures r.Ok? <==> currProposedNumber.Some? && currProposedValue.Some?
      ensures r.Ok? ==> r.value.proposalNumber == currProposedNumber.value && r.value.value == currProposedValue.value
      ensures r.Err? ==> r.error == PreconditionFailed
    {
      if currProposedNumber.None? || currProposedValue.None? {
        return Err(PreconditionFailed);
      }
      return Ok(AcceptMessage(currProposedNumber.value, currProposedValue.value));
    }

    /**
     * The loop of `on_promise_message` over the recorded promises, visited in an order the set does
     * not fix: a running maximum of the reported numbers and the value that came with it. `raised`
     * stands for a failed assertion on a promise with only one of number and value.
     */
    static method ScanPromiseQuorum(recorded: set<PromiseMessage>) returns (raised: bool, adopted: Option<string>)
      ensures raised ==> exists order :: Enumerates(order, recorded) && ScanPromises(order).failed
      ensures !raised ==> exists order :: Enumerates(order, recorded) && ScanPromises(order) == PromiseTally(false, ScanPromises(order).highest, adopted)
    {
      var highest: ProposalNumber := Min();
      adopted, raised := None, false;
      var rest := recorded;
      ghost var order: seq<PromiseMessage> := [];
      while rest != {}
        invariant rest <= recorded
        invariant Enumerates(order, recorded - rest)
        invariant ScanPromises(order) == PromiseTally(false, highest, adopted)
        decreases |rest|
      {
        var res :| res in rest;
        VisitPromise(order, res, rest, recorded);
        rest := rest - {res};
        order := order + [res];
        if res.acceptedProposalNumber.None? {
          if res.acceptedValue.Some? {
            return true, adopted;
          }
          continue;
        }
        if Less(highest, res.acceptedProposalNumber.value) {
          highest := res.acceptedProposalNumber.value;
          if res.acceptedValue.None? {
            return true, adopted;
          }
          adopted := res.acceptedValue;
        }
      }
    }

    method OnPromiseMessage(msg: PromiseMessage) returns (outcome: Outcome<Error>)
      requires Valid()
      modifies this
      ensures Valid() && issued == old(issued)
      ensures PromiseHandled(old(State()), msg, State(), outcome)
    {
      ghost var s0 := State();
      promises := promises + {msg};
      if |promises| != quorumSize {
        PromiseBelowQuorum(s0, msg);
        return Pass;
      }
      var raised, adopted := ScanPromiseQuorum(promises);
      if raised {
        PromiseQuorumRaised(s0, msg);
        return Fail(PreconditionFailed);
      }
      PromiseQuorumScanned(s0, msg, adopted);
      if adopted.Some? {
        currProposedValue := adopted;
      }
      return Pass;
    }

    /**
     * The loop of `on_accepted_message` over the recorded replies, visited in an order the set does
     * not fix, for the round `curr` proposing `value`: the first reply above `curr` rejects and sets
     * the round counter from its number; each reply visited before it sets the chosen value.
     */
    static method ScanAcceptedQuorum(recorded: set<AcceptedMessage>, curr: ProposalNumber, value: Option<string>,
                                     chosen0: Option<string>, round0: int)
      returns (rejected: bool, chosen: Option<string>, maxRound: int)
      ensures exists order :: (Enumerates(order, recorded) &&
        ScanAccepted(order, curr, value, chosen0, round0) == AcceptedTally(rejected, chosen, maxRound))
    {
      rejected, chosen, maxRound := false, chosen0, round0;
      var rest := recorded;
      ghost var order: seq<AcceptedMessage> := [];
      while rest != {}
        invariant rest <= recorded
        invariant Enumerates(order, recorded - rest)
        invariant ScanAccepted(order, curr, value, chosen0, round0) == AcceptedTally(false, chosen, maxRound)
        decreases |rest|
      {
        var m :| m in rest;
        VisitReply(order, m, rest, recorded, curr, value, chosen0, round0);
        rest := rest - {m};
        order := order + [m];
        if Less(curr, m.proposalNumber) {
          maxRound := m.proposalNumber.number;
          return true, chosen, maxRound;
        }
        chosen := value;
      }
      assert recorded - rest == recorded;
    }

    method OnAcceptedMessage(msg: AcceptedMessage) returns (outcome: Outcome<Error>)
      requires Valid()
      modifies this
      ensures Valid() && issued == old(issued)
      ensures AcceptedHandled(old(State()), msg, State(), outcome)
    {
      ghost var s0 := State();
      accepted := accepted + {msg};
      if |accepted| != quorumSize {
        AcceptedBelowQuorum(s0, msg);
        return Pass;
      }
      if currProposedNumber.None? {
        AcceptedQuorumBeforePrepare(s0, msg);
        return Fail(PreconditionFailed);
      }
      var rejected;
      rejected, chosenValue, maxRoundNumber :=
        ScanAcceptedQuorum(accepted, currProposedNumber.value, currProposedValue, chosenValue, maxRoundNumber);
      assert s0.currProposedNumber.value == issued[|issued| - 1];
      AcceptedQuorumScanned(s0, msg, AcceptedTally(rejected, chosenValue, maxRoundNumber));
      IssuedInOrderRaised(issued, serverId, s0.maxRoundNumber, maxRoundNumber, currProposedNumber);
      return if rejected then Fail(Rejected) else Pass;
    }

    /** `handle_message` on a proposer: promise and accepted have handlers, the other kinds raise. */
    method HandleMessage(msg: PaxosMessage) returns (outcome: Outcome<Error>)
      requires Valid()
      modifies this
      ensures Valid() && issued == old(issued)
      ensures !Supports(ProposerRole, msg) ==>
        outcome == Fail(InvalidMessage(ProposerRole, Kind(msg))) && State() == old(State())
      ensures msg.Promise? ==> PromiseHandled(old(State()), msg.promise, State(), outcome)
      ensures msg.Accepted? ==> AcceptedHandled(old(State()), msg.accepted, State(), outcome)
    {
      match msg
      case Promise(p) =>
        outcome := OnPromiseMessage(p);
      case Accepted(a) =>
        outcome := OnAcceptedMessage(a);
      case _ =>
        outcome := Fail(InvalidMessage(ProposerRole, Kind(msg)));
    }
  }
}
