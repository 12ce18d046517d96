/**
 * The two runs of test_paxos.py, replayed against the acceptor and proposer classes.
 * Every message goes through the classes' HandleMessage dispatch, as in the tests; the step
 * methods below name which branch of a handler each delivery takes.
 */
module Scenarios {
  import opened Wrappers
  import opened ProposalNumbers
  import opened Messages
  import opened ProposerRules
  import opened Acceptors
  import opened Proposers

  /** "proposer-1" < "proposer-2", the tie-break both runs depend on. */
  lemma ProposerIdsOrdered()
    ensures StrLess("proposer-1", "proposer-2") && !StrLess("proposer-2", "proposer-1")
    ensures !StrLess("proposer-1", "proposer-1") && !StrLess("proposer-2", "proposer-2")
  {
    StrLessCommonPrefix("proposer-", "1", "2");
    StrLessCommonPrefix("proposer-", "2", "1");
    assert "proposer-" + "1" == "proposer-1" && "proposer-" + "2" == "proposer-2";
    StrLessIrreflexive("proposer-1");
    StrLessIrreflexive("proposer-2");
  }

  /** proposer-2's first round number outranks proposer-1's. */
  lemma FirstRoundsOrdered()
    ensures Less(ProposalNumber(1, "proposer-1"), ProposalNumber(1, "proposer-2"))
    ensures !Less(ProposalNumber(1, "proposer-2"), ProposalNumber(1, "proposer-1"))
    ensures !Less(ProposalNumber(1, "proposer-2"), ProposalNumber(1, "proposer-2"))
  {
    ProposerIdsOrdered();
  }

  /** The three acceptor names differ (at their last character). */
  lemma AcceptorIdsDistinct()
    ensures "acceptor-1" != "acceptor-2" && "acceptor-1" != "acceptor-3" && "acceptor-2" != "acceptor-3"
  {
    assert "acceptor-1"[9] == '1' && "acceptor-2"[9] == '2' && "acceptor-3"[9] == '3';
  }

  // ---- acceptor deliveries ----

  /** A prepare above the acceptor's floor raises the floor and reports the accepted pair. */
  method PromiseAbove(a: Acceptor, prepare: PrepareMessage) returns (reply: PaxosMessage)
    requires a.Valid() && Less(a.minProposalNumber, prepare.proposalNumber)
    modifies a
    ensures a.Valid() && a.State() == old(a.State()).(minProposalNumber := prepare.proposalNumber)
    ensures reply == Promise(PromiseMessage(a.serverId, old(a.acceptedProposalNumber), old(a.acceptedValue)))
  {
    var r := a.HandleMessage(Prepare(prepare));
    reply := r.value;
  }

  /** A prepare below the acceptor's floor leaves it unchanged but is still answered. */
  method PromiseBelow(a: Acceptor, prepare: PrepareMessage) returns (reply: PaxosMessage)
    requires a.Valid() && Less(prepare.proposalNumber, a.minProposalNumber)
    modifies a
    ensures a.Valid() && a.State() == old(a.State())
    ensures reply == Promise(PromiseMessage(a.serverId, a.acceptedProposalNumber, a.acceptedValue))
  {
    NotLessEqIsGreater(a.minProposalNumber, prepare.proposalNumber);
    var r := a.HandleMessage(Prepare(prepare));
    reply := r.value;
  }

  /** An accept at the promised number is taken. */
  method AcceptAtFloor(a: Acceptor, accept: AcceptMessage) returns (reply: PaxosMessage)
    requires a.Valid() && a.minProposalNumber == accept.proposalNumber
    modifies a
    ensures a.Valid()
    ensures a.State() == old(a.State()).(acceptedProposalNumber := Some(accept.proposalNumber),
                                        acceptedValue := Some(accept.value))
    ensures reply == Accepted(AcceptedMessage(a.serverId, accept.proposalNumber))
  {
    var r := a.HandleMessage(Accept(accept));
    reply := r.value;
  }

  /** An accept below the floor is ignored; the reply carries the floor. */
  method AcceptBelow(a: Acceptor, accept: AcceptMessage) returns (reply: PaxosMessage)
    requires a.Valid() && Less(accept.proposalNumber, a.minProposalNumber)
    modifies a
    ensures a.Valid() && a.State() == old(a.State())
    ensures reply == Accepted(AcceptedMessage(a.serverId, a.minProposalNumber))
  {
    var r := a.HandleMessage(Accept(accept));
    reply := r.value;
  }

  // ---- proposer deliveries ----

  /** propose_value followed by get_prepare_message on a proposer with no value yet. */
  method StartRound(p: Proposer, value: string) returns (prepare: PaxosMessage)
    requires p.Valid() && p.currProposedValue.None?
    modifies p
    ensures p.Valid()
    ensures prepare == Prepare(PrepareMessage(ProposalNumber(old(p.maxRoundNumber) + 1, p.serverId)))
    ensures p.State() == old(p.State()).(currProposedValue := Some(value),
                                        currProposedNumber := Some(prepare.prepare.proposalNumber),
                                        maxRoundNumber := old(p.maxRoundNumber) + 1)
  {
    var _ := p.ProposeValue(value);
    var msg := p.GetPrepareMessage();
    prepare := Prepare(msg);
  }

  /** get_accept_message once both a number and a value are set. */
  method AcceptFor(p: Proposer) returns (accept: PaxosMessage)
    requires p.currProposedNumber.Some? && p.currProposedValue.Some?
    ensures accept == Accept(AcceptMessage(p.currProposedNumber.value, p.currProposedValue.value))
  {
    var r := p.GetAcceptMessage();
    accept := Accept(r.value);
  }

  // Both runs use three acceptors, so every quorum is two messages: the first delivery of a kind is
  // only recorded and the second triggers the scan.

  /** The first promise is only recorded. */
  method FirstPromise(p: Proposer, r: PromiseMessage) returns (outcome: Outcome<Error>)
    requires p.Valid() && p.quorumSize == 2 && p.promises == {}
    modifies p
    ensures p.Valid() && outcome == Pass
    ensures p.State() == old(p.State()).(promises := {r})
  {
    ghost var s := p.State();
    outcome := p.HandleMessage(Promise(r));
    PromiseRecorded(s, r, p.State(), outcome);
  }

  /** A second, different promise completes the quorum; when neither reports an accepted pair the value stays. */
  method SecondPromise(p: Proposer, first: PromiseMessage, r: PromiseMessage) returns (outcome: Outcome<Error>)
    requires p.Valid() && p.quorumSize == 2 && p.promises == {first} && first != r
    requires first.acceptedProposalNumber == None && first.acceptedValue == None
    requires r.acceptedProposalNumber == None && r.acceptedValue == None
    modifies p
    ensures p.Valid() && outcome == Pass
    ensures p.State() == old(p.State()).(promises := {first, r})
  {
    assert p.promises + {r} == {first, r};
    ghost var s := p.State();
    outcome := p.HandleMessage(Promise(r));
    PromiseQuorumKeepsValue(s, r, p.State(), outcome);
  }

  /** A second promise completes the quorum; when only the first reports an accepted pair, its value is adopted. */
  method SecondPromiseAdopting(p: Proposer, first: PromiseMessage, r: PromiseMessage) returns (outcome: Outcome<Error>)
    requires p.Valid() && p.quorumSize == 2 && p.promises == {first} && first != r
    requires first.acceptedProposalNumber.Some? && first.acceptedValue.Some?
    requires Less(Min(), first.acceptedProposalNumber.value)
    requires r.acceptedProposalNumber == None && r.acceptedValue == None
    modifies p
    ensures p.Valid() && outcome == Pass
    ensures p.State() == old(p.State()).(promises := {first, r}, currProposedValue := first.acceptedValue)
  {
    assert p.promises + {r} == {first, r};
    ghost var s := p.State();
    outcome := p.HandleMessage(Promise(r));
    PromiseQuorumAdoptsReported(s, r, p.State(), outcome, first);
  }

  /** The first accepted message is only recorded. */
  method FirstAccepted(p: Proposer, m: AcceptedMessage) returns (outcome: Outcome<Error>)
    requires p.Valid() && p.quorumSize == 2 && p.accepted == {}
    modifies p
    ensures p.Valid() && outcome == Pass
    ensures p.State() == old(p.State()).(accepted := {m})
  {
    ghost var s := p.State();
    outcome := p.HandleMessage(Accepted(m));
    AcceptedRecorded(s, m, p.State(), outcome);
  }

  /** A second, different accepted message at the current number completes the quorum and chooses the value. */
  method SecondAccepted(p: Proposer, first: AcceptedMessage, m: AcceptedMessage) returns (outcome: Outcome<Error>)
    requires p.Valid() && p.quorumSize == 2 && p.accepted == {first} && first != m
    requires p.currProposedNumber == Some(first.proposalNumber) && m.proposalNumber == first.proposalNumber
    modifies p
    ensures p.Valid() && outcome == Pass
    ensures p.State() == old(p.State()).(accepted := {first, m}, chosenValue := old(p.currProposedValue))
  {
    assert p.accepted + {m} == {first, m};
    LessIrreflexive(first.proposalNumber);
    ghost var s := p.State();
    outcome := p.HandleMessage(Accepted(m));
    AcceptedQuorumChooses(s, m, p.State(), outcome);
  }

  /** A second accepted message carrying a higher number completes the quorum and the round is rejected. */
  method SecondAcceptedRejected(p: Proposer, first: AcceptedMessage, m: AcceptedMessage) returns (outcome: Outcome<Error>)
    requires p.Valid() && p.quorumSize == 2 && p.accepted == {first} && first != m
    requires p.currProposedNumber == Some(first.proposalNumber) && Less(first.proposalNumber, m.proposalNumber)
    modifies p
    ensures p.Valid() && outcome == Fail(Rejected)
    ensures p.maxRoundNumber == m.proposalNumber.number
    ensures p.chosenValue == old(p.chosenValue) || p.chosenValue == old(p.currProposedValue)
  {
    assert p.accepted + {m} == {first, m};
    LessIrreflexive(first.proposalNumber);
    ghost var s := p.State();
    outcome := p.HandleMessage(Accepted(m));
    AcceptedQuorumRejects(s, m, p.State(), outcome, m);
  }

  // ---- test_case_1 (test_paxos.py:4-51), one method per block of the test ----

  const N1 := ProposalNumber(1, "proposer-1")
  const N2 := ProposalNumber(1, "proposer-2")

  /** Proposer state after propose_value(value) and the first get_prepare_message. */
  function Started(serverId: string, value: string): ProposerState
  {
    InitialProposer(serverId, 2).(currProposedValue := Some(value),
                                  currProposedNumber := Some(ProposalNumber(1, serverId)),
                                  maxRoundNumber := 1)
  }

  /** test_paxos.py:13-16: proposer-1 opens its first round and acceptors 1 and 2 promise it. */
  method CaseOneP1Prepares(a1: Acceptor, a2: Acceptor, p1: Proposer) returns (r1: PromiseMessage, r2: PromiseMessage)
    requires a1 != a2 && a1.Valid() && a2.Valid() && p1.Valid()
    requires a1.State() == Initial("acceptor-1") && a2.State() == Initial("acceptor-2")
    requires p1.State() == InitialProposer("proposer-1", 2)
    modifies a1, a2, p1
    ensures a1.Valid() && a2.Valid() && p1.Valid()
    ensures a1.State() == Initial("acceptor-1").(minProposalNumber := N1)
    ensures a2.State() == Initial("acceptor-2").(minProposalNumber := N1)
    ensures p1.State() == Started("proposer-1", "foo")
    ensures r1 == PromiseMessage("acceptor-1", None, None) && r2 == PromiseMessage("acceptor-2", None, None)
  {
    AcceptorIdsDistinct();
    var prepare := StartRound(p1, "foo");
    var promise1 := PromiseAbove(a1, prepare.prepare);
    var promise2 := PromiseAbove(a2, prepare.prepare);
    r1, r2 := promise1.promise, promise2.promise;
  }

  /** test_paxos.py:19-25: proposer-1 collects both promises and acceptors 1 and 2 receive its accept. */
  method CaseOneP1Accepts(a1: Acceptor, a2: Acceptor, p1: Proposer, r1: PromiseMessage, r2: PromiseMessage)
    returns (m1: AcceptedMessage, m2: AcceptedMessage)
    requires a1 != a2 && a1.Valid() && a2.Valid() && p1.Valid()
    requires a1.State() == Initial("acceptor-1").(minProposalNumber := N1)
    requires a2.State() == Initial("acceptor-2").(minProposalNumber := N1)
    requires p1.State() == Started("proposer-1", "foo")
    requires r1 == PromiseMessage("acceptor-1", None, None) && r2 == PromiseMessage("acceptor-2", None, None)
    modifies a1, a2, p1
    ensures a2.Valid() && p1.Valid()
    ensures a2.State() == AcceptorState("acceptor-2", N1, Some(N1), Some("foo"))
    ensures p1.State() == Started("proposer-1", "foo").(promises := {r1, r2})
    ensures m1 == AcceptedMessage("acceptor-1", N1) && m2 == AcceptedMessage("acceptor-2", N1)
  {
    AcceptorIdsDistinct();
    var _ := FirstPromise(p1, r1);
    var _ := SecondPromise(p1, r1, r2);
    var accept := AcceptFor(p1);
    var accepted1 := AcceptAtFloor(a1, accept.accept);
    var accepted2 := AcceptAtFloor(a2, accept.accept);
    m1, m2 := accepted1.accepted, accepted2.accepted;
  }

  /** test_paxos.py:28-29: both acceptances reach proposer-1, which then learns its value. */
  method CaseOneP1Learns(p1: Proposer, m1: AcceptedMessage, m2: AcceptedMessage)
    requires p1.Valid() && p1.quorumSize == 2 && p1.accepted == {}
    requires p1.currProposedNumber == Some(N1) && p1.currProposedValue == Some("foo")
    requires m1 == AcceptedMessage("acceptor-1", N1) && m2 == AcceptedMessage("acceptor-2", N1)
    modifies p1
    ensures p1.chosenValue == Some("foo")
  {
    AcceptorIdsDistinct();
    LessIrreflexive(N1);
    var _ := FirstAccepted(p1, m1);
    var _ := SecondAccepted(p1, m1, m2);
  }

  /** test_paxos.py:32-35: proposer-2 opens its round; acceptor 2 reports that it accepted "foo". */
  method CaseOneP2Prepares(a2: Acceptor, a3: Acceptor, p2: Proposer) returns (r2: PromiseMessage, r3: PromiseMessage)
    requires a2 != a3 && a2.Valid() && a3.Valid() && p2.Valid()
    requires a2.State() == AcceptorState("acceptor-2", N1, Some(N1), Some("foo"))
    requires a3.State() == Initial("acceptor-3")
    requires p2.State() == InitialProposer("proposer-2", 2)
    modifies a2, a3, p2
    ensures a2.Valid() && a3.Valid() && p2.Valid()
    ensures a2.State() == AcceptorState("acceptor-2", N2, Some(N1), Some("foo"))
    ensures a3.State() == Initial("acceptor-3").(minProposalNumber := N2)
    ensures p2.State() == Started("proposer-2", "bar")
    ensures r2 == PromiseMessage("acceptor-2", Some(N1), Some("foo")) && r3 == PromiseMessage("acceptor-3", None, None)
  {
    AcceptorIdsDistinct();
    FirstRoundsOrdered();
    var prepare := StartRound(p2, "bar");
    var promise2 := PromiseAbove(a2, prepare.prepare);
    var promise3 := PromiseAbove(a3, prepare.prepare);
    r2, r3 := promise2.promise, promise3.promise;
  }

  /** test_paxos.py:38-44: proposer-2 collects the promises, adopts "foo", and acceptors 2 and 3 receive its accept. */
  method CaseOneP2Accepts(a2: Acceptor, a3: Acceptor, p2: Proposer, r2: PromiseMessage, r3: PromiseMessage)
    returns (m2: AcceptedMessage, m3: AcceptedMessage)
    requires a2 != a3 && a2.Valid() && a3.Valid() && p2.Valid()
    requires a2.State() == AcceptorState("acceptor-2", N2, Some(N1), Some("foo"))
    requires a3.State() == Initial("acceptor-3").(minProposalNumber := N2)
    requires p2.State() == Started("proposer-2", "bar")
    requires r2 == PromiseMessage("acceptor-2", Some(N1), Some("foo")) && r3 == PromiseMessage("acceptor-3", None, None)
    modifies a2, a3, p2
    ensures p2.Valid()
    ensures p2.State() == Started("proposer-2", "foo").(promises := {r2, r3})
    ensures m2 == AcceptedMessage("acceptor-2", N2) && m3 == AcceptedMessage("acceptor-3", N2)
  {
    AcceptorIdsDistinct();
    var _ := FirstPromise(p2, r2);
    var _ := SecondPromiseAdopting(p2, r2, r3);
    var accept := AcceptFor(p2);
    var accepted2 := AcceptAtFloor(a2, accept.accept);
    var accepted3 := AcceptAtFloor(a3, accept.accept);
    m2, m3 := accepted2.accepted, accepted3.accepted;
  }

  /** test_paxos.py:47-48: both acceptances reach proposer-2 (the test's comment names proposer 1 here). */
  method CaseOneP2Learns(p2: Proposer, m2: AcceptedMessage, m3: AcceptedMessage)
    requires p2.Valid() && p2.quorumSize == 2 && p2.accepted == {}
    requires p2.currProposedNumber == Some(N2) && p2.currProposedValue == Some("foo")
    requires m2 == AcceptedMessage("acceptor-2", N2) && m3 == AcceptedMessage("acceptor-3", N2)
    modifies p2
    ensures p2.chosenValue == Some("foo")
  {
    AcceptorIdsDistinct();
    LessIrreflexive(N2);
    var _ := FirstAccepted(p2, m2);
    var _ := SecondAccepted(p2, m2, m3);
  }

  /** The first four blocks of test_case_1: proposer-1's whole round. */
  method CaseOneFirstRound(a1: Acceptor, a2: Acceptor, p1: Proposer)
    requires a1 != a2 && a1.Valid() && a2.Valid() && p1.Valid()
    requires a1.State() == Initial("acceptor-1") && a2.State() == Initial("acceptor-2")
    requires p1.State() == InitialProposer("proposer-1", 2)
    modifies a1, a2, p1
    ensures a2.Valid() && a2.State() == AcceptorState("acceptor-2", N1, Some(N1), Some("foo"))
    ensures p1.chosenValue == Some("foo")
  {
    var r1, r2 := CaseOneP1Prepares(a1, a2, p1);
    var m1, m2 := CaseOneP1Accepts(a1, a2, p1, r1, r2);
    CaseOneP1Learns(p1, m1, m2);
  }

  /** The last four blocks of test_case_1: proposer-2's whole round. */
  method CaseOneSecondRound(a2: Acceptor, a3: Acceptor, p2: Proposer)
    requires a2 != a3 && a2.Valid() && a3.Valid() && p2.Valid()
    requires a2.State() == AcceptorState("acceptor-2", N1, Some(N1), Some("foo"))
    requires a3.State() == Initial("acceptor-3")
    requires p2.State() == InitialProposer("proposer-2", 2)
    modifies a2, a3, p2
    ensures p2.chosenValue == Some("foo")
  {
    var r2, r3 := CaseOneP2Prepares(a2, a3, p2);
    var m2, m3 := CaseOneP2Accepts(a2, a3, p2, r2, r3);
    CaseOneP2Learns(p2, m2, m3);
  }

  /**
   * test_case_1: proposer-1 gets "foo" chosen by acceptors 1 and 2; proposer-2, proposing "bar" to
   * acceptors 2 and 3, learns "foo" from acceptor 2's promise and gets "foo" chosen as well.
   */
  method LaterProposerAdoptsAcceptedValue() returns (p1Chosen: Option<string>, p2Chosen: Option<string>)
    ensures p1Chosen == Some("foo") && p2Chosen == Some("foo")
  {
    var a1 := new Acceptor("acceptor-1");
    var a2 := new Acceptor("acceptor-2");
    var a3 := new Acceptor("acceptor-3");
    var p1 := new Proposer.Init("proposer-1", 3);
    var p2 := new Proposer.Init("proposer-2", 3);
    CaseOneFirstRound(a1, a2, p1);
    CaseOneSecondRound(a2, a3, p2);
    p1Chosen, p2Chosen := p1.chosenValue, p2.chosenValue;
  }

  // ---- test_case_2 (test_paxos.py:54-112), one method per block of the test ----

  /** test_paxos.py:63-68: proposer-1 opens its round; only acceptor 1 answers so far, and proposer-1 records that promise. */
  method CaseTwoP1Prepares(a1: Acceptor, p1: Proposer) returns (prepare: PrepareMessage, r1: PromiseMessage)
    requires a1.Valid() && p1.Valid()
    requires a1.State() == Initial("acceptor-1") && p1.State() == InitialProposer("proposer-1", 2)
    modifies a1, p1
    ensures a1.Valid() && p1.Valid()
    ensures a1.State() == Initial("acceptor-1").(minProposalNumber := N1)
    ensures p1.State() == Started("proposer-1", "foo").(promises := {r1})
    ensures prepare == PrepareMessage(N1) && r1 == PromiseMessage("acceptor-1", None, None)
  {
    AcceptorIdsDistinct();
    var msg := StartRound(p1, "foo");
    var promise1 := PromiseAbove(a1, msg.prepare);
    var _ := FirstPromise(p1, promise1.promise);
    prepare, r1 := msg.prepare, promise1.promise;
  }

  /** test_paxos.py:71-74: proposer-2 opens its round at acceptors 2 and 3, which have promised nothing yet. */
  method CaseTwoP2Prepares(a2: Acceptor, a3: Acceptor, p2: Proposer) returns (r2: PromiseMessage, r3: PromiseMessage)
    requires a2 != a3 && a2.Valid() && a3.Valid() && p2.Valid()
    requires a2.State() == Initial("acceptor-2") && a3.State() == Initial("acceptor-3")
    requires p2.State() == InitialProposer("proposer-2", 2)
    modifies a2, a3, p2
    ensures a2.Valid() && a3.Valid() && p2.Valid()
    ensures a2.State() == Initial("acceptor-2").(minProposalNumber := N2)
    ensures a3.State() == Initial("acceptor-3").(minProposalNumber := N2)
    ensures p2.State() == Started("proposer-2", "bar")
    ensures r2 == PromiseMessage("acceptor-2", None, None) && r3 == PromiseMessage("acceptor-3", None, None)
  {
    AcceptorIdsDistinct();
    var prepare := StartRound(p2, "bar");
    var promise2 := PromiseAbove(a2, prepare.prepare);
    var promise3 := PromiseAbove(a3, prepare.prepare);
    r2, r3 := promise2.promise, promise3.promise;
  }

  /** test_paxos.py:77-84: proposer-2 reaches its promise quorum and only acceptor 3 receives its accept. */
  method CaseTwoP2Accepts(a3: Acceptor, p2: Proposer, r2: PromiseMessage, r3: PromiseMessage)
    returns (accept: AcceptMessage, m3: AcceptedMessage)
    requires a3.Valid() && p2.Valid()
    requires a3.State() == Initial("acceptor-3").(minProposalNumber := N2)
    requires p2.State() == Started("proposer-2", "bar")
    requires r2 == PromiseMessage("acceptor-2", None, None) && r3 == PromiseMessage("acceptor-3", None, None)
    modifies a3, p2
    ensures p2.Valid()
    ensures p2.State() == Started("proposer-2", "bar").(promises := {r2, r3})
    ensures accept == AcceptMessage(N2, "bar") && m3 == AcceptedMessage("acceptor-3", N2)
  {
    AcceptorIdsDistinct();
    var _ := FirstPromise(p2, r2);
    var _ := SecondPromise(p2, r2, r3);
    var msg := AcceptFor(p2);
    var accepted3 := AcceptAtFloor(a3, msg.accept);
    accept, m3 := msg.accept, accepted3.accepted;
  }

  /** test_paxos.py:87-91: acceptor 2, already promised to proposer-2, still answers proposer-1's late prepare. */
  method CaseTwoP1CompletesPromises(a2: Acceptor, p1: Proposer, prepare: PrepareMessage, r1: PromiseMessage)
    returns (accept: AcceptMessage)
    requires a2.Valid() && p1.Valid()
    requires a2.State() == Initial("acceptor-2").(minProposalNumber := N2)
    requires p1.State() == Started("proposer-1", "foo").(promises := {r1})
    requires prepare == PrepareMessage(N1) && r1 == PromiseMessage("acceptor-1", None, None)
    modifies a2, p1
    ensures a2.Valid() && p1.Valid()
    ensures a2.State() == Initial("acceptor-2").(minProposalNumber := N2)
    ensures p1.quorumSize == 2 && p1.accepted == {} && p1.chosenValue == None
    ensures p1.currProposedNumber == Some(N1) && p1.currProposedValue == Some("foo")
    ensures accept == AcceptMessage(N1, "foo")
  {
    AcceptorIdsDistinct();
    FirstRoundsOrdered();
    var promise2 := PromiseBelow(a2, prepare);
    var _ := SecondPromise(p1, r1, promise2.promise);
    var msg := AcceptFor(p1);
    accept := msg.accept;
  }

  /** test_paxos.py:94-95: proposer-1's accept reaches acceptors 1 and 2; acceptor 2 turns it down. */
  method CaseTwoP1Accepts(a1: Acceptor, a2: Acceptor, accept: AcceptMessage)
    returns (m1: AcceptedMessage, m2: AcceptedMessage)
    requires a1 != a2 && a1.Valid() && a2.Valid()
    requires a1.State() == Initial("acceptor-1").(minProposalNumber := N1)
    requires a2.State() == Initial("acceptor-2").(minProposalNumber := N2)
    requires accept == AcceptMessage(N1, "foo")
    modifies a1, a2
    ensures a2.Valid() && a2.State() == Initial("acceptor-2").(minProposalNumber := N2)
    ensures m1 == AcceptedMessage("acceptor-1", N1) && m2 == AcceptedMessage("acceptor-2", N2)
  {
    AcceptorIdsDistinct();
    FirstRoundsOrdered();
    var accepted1 := AcceptAtFloor(a1, accept);
    var accepted2 := AcceptBelow(a2, accept);
    m1, m2 := accepted1.accepted, accepted2.accepted;
  }

  /** test_paxos.py:98: proposer-2's accept finally reaches acceptor 2. */
  method CaseTwoA2AcceptsBar(a2: Acceptor, accept: AcceptMessage) returns (m2: AcceptedMessage)
    requires a2.Valid() && a2.State() == Initial("acceptor-2").(minProposalNumber := N2)
    requires accept == AcceptMessage(N2, "bar")
    modifies a2
    ensures a2.State() == AcceptorState("acceptor-2", N2, Some(N2), Some("bar"))
    ensures m2 == AcceptedMessage("acceptor-2", N2)
  {
    var accepted2 := AcceptAtFloor(a2, accept);
    m2 := accepted2.accepted;
  }

  /** test_paxos.py:101-102: both acceptances reach proposer-2. */
  method CaseTwoP2Learns(p2: Proposer, m2: AcceptedMessage, m3: AcceptedMessage)
    requires p2.Valid() && p2.quorumSize == 2 && p2.accepted == {}
    requires p2.currProposedNumber == Some(N2) && p2.currProposedValue == Some("bar")
    requires m2 == AcceptedMessage("acceptor-2", N2) && m3 == AcceptedMessage("acceptor-3", N2)
    modifies p2
    ensures p2.chosenValue == Some("bar")
  {
    AcceptorIdsDistinct();
    var _ := FirstAccepted(p2, m2);
    var _ := SecondAccepted(p2, m2, m3);
  }

  /** test_paxos.py:105-110: proposer-1 gets its two replies; acceptor 2's carries proposer-2's higher number. */
  method CaseTwoP1Rejected(p1: Proposer, m1: AcceptedMessage, m2: AcceptedMessage) returns (outcome: Outcome<Error>)
    requires p1.Valid() && p1.quorumSize == 2 && p1.accepted == {} && p1.chosenValue == None
    requires p1.currProposedNumber == Some(N1) && p1.currProposedValue == Some("foo")
    requires m1 == AcceptedMessage("acceptor-1", N1) && m2 == AcceptedMessage("acceptor-2", N2)
    modifies p1
    ensures outcome == Fail(Rejected)
    ensures p1.chosenValue == None || p1.chosenValue == Some("foo")
  {
    AcceptorIdsDistinct();
    FirstRoundsOrdered();
    var _ := FirstAccepted(p1, m1);
    outcome := SecondAcceptedRejected(p1, m1, m2);
  }

  /** The first six blocks of test_case_2, up to proposer-2's accept reaching acceptor 3. */
  method CaseTwoOpening(a1: Acceptor, a2: Acceptor, a3: Acceptor, p1: Proposer, p2: Proposer)
    returns (prepare1: PrepareMessage, r1: PromiseMessage, accept2: AcceptMessage, m3: AcceptedMessage)
    requires a1 != a2 && a1 != a3 && a2 != a3 && p1 != p2
    requires a1.Valid() && a2.Valid() && a3.Valid() && p1.Valid() && p2.Valid()
    requires a1.State() == Initial("acceptor-1") && a2.State() == Initial("acceptor-2") && a3.State() == Initial("acceptor-3")
    requires p1.State() == InitialProposer("proposer-1", 2) && p2.State() == InitialProposer("proposer-2", 2)
    modifies a1, a2, a3, p1, p2
    ensures a1.Valid() && a2.Valid() && p1.Valid() && p2.Valid()
    ensures a1.State() == Initial("acceptor-1").(minProposalNumber := N1)
    ensures a2.State() == Initial("acceptor-2").(minProposalNumber := N2)
    ensures p1.State() == Started("proposer-1", "foo").(promises := {r1})
    ensures p2.quorumSize == 2 && p2.accepted == {}
    ensures p2.currProposedNumber == Some(N2) && p2.currProposedValue == Some("bar")
    ensures prepare1 == PrepareMessage(N1) && r1 == PromiseMessage("acceptor-1", None, None)
    ensures accept2 == AcceptMessage(N2, "bar") && m3 == AcceptedMessage("acceptor-3", N2)
  {
    prepare1, r1 := CaseTwoP1Prepares(a1, p1);
    var r2, r3 := CaseTwoP2Prepares(a2, a3, p2);
    accept2, m3 := CaseTwoP2Accepts(a3, p2, r2, r3);
  }

  /** The remaining blocks of test_case_2: proposer-1's late accept phase and both learning steps. */
  method CaseTwoClosing(a1: Acceptor, a2: Acceptor, p1: Proposer, p2: Proposer, prepare1: PrepareMessage,
                        r1: PromiseMessage, accept2: AcceptMessage, m3: AcceptedMessage)
    returns (p1Outcome: Outcome<Error>)
    requires a1 != a2 && p1 != p2
    requires a1.Valid() && a2.Valid() && p1.Valid() && p2.Valid()
    requires a1.State() == Initial("acceptor-1").(minProposalNumber := N1)
    requires a2.State() == Initial("acceptor-2").(minProposalNumber := N2)
    requires p1.State() == Started("proposer-1", "foo").(promises := {r1})
    requires p2.quorumSize == 2 && p2.accepted == {}
    requires p2.currProposedNumber == Some(N2) && p2.currProposedValue == Some("bar")
    requires prepare1 == PrepareMessage(N1) && r1 == PromiseMessage("acceptor-1", None, None)
    requires accept2 == AcceptMessage(N2, "bar") && m3 == AcceptedMessage("acceptor-3", N2)
    modifies a1, a2, p1, p2
    ensures p1Outcome == Fail(Rejected) && p2.chosenValue == Some("bar")
    ensures p1.chosenValue == None || p1.chosenValue == Some("foo")
  {
    var accept1 := CaseTwoP1CompletesPromises(a2, p1, prepare1, r1);
    var m1, m2 := CaseTwoP1Accepts(a1, a2, accept1);
    var n2 := CaseTwoA2AcceptsBar(a2, accept2);
    CaseTwoP2Learns(p2, n2, m3);
    p1Outcome := CaseTwoP1Rejected(p1, m1, m2);
  }

  /**
   * test_case_2: proposer-2 overtakes proposer-1 between its prepare and accept phases. Proposer-2
   * gets "bar" chosen; proposer-1's round is rejected. Whether proposer-1 has set "foo" as chosen
   * before the rejection depends on the order its set of accepted messages is walked in
   * (ProposerRules.RejectedRoundMayStillChoose), so both are allowed here.
   */
  method ConflictingRoundIsRejected() returns (p1Outcome: Outcome<Error>, p1Chosen: Option<string>, p2Chosen: Option<string>)
    ensures p1Outcome == Fail(Rejected) && p2Chosen == Some("bar")
    ensures p1Chosen == None || p1Chosen == Some("foo")
  {
    var a1 := new Acceptor("acceptor-1");
    var a2 := new Acceptor("acceptor-2");
    var a3 := new Acceptor("acceptor-3");
    var p1 := new Proposer.Init("proposer-1", 3);
    var p2 := new Proposer.Init("proposer-2", 3);
    var prepare1, r1, accept2, m3 := CaseTwoOpening(a1, a2, a3, p1, p2);
    p1Outcome := CaseTwoClosing(a1, a2, p1, p2, prepare1, r1, accept2, m3);
    p1Chosen, p2Chosen := p1.chosenValue, p2.chosenValue;
  }
}
