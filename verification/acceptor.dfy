/** The acceptor role: a promise floor and the last accepted (number, value) pair. */
module Acceptors {
  import opened Wrappers
  import opened ProposalNumbers
  import opened Messages

  /** A snapshot of an acceptor's fields. */
  datatype AcceptorState = AcceptorState(
    serverId: string,
    minProposalNumber: ProposalNumber,
    acceptedProposalNumber: Option<ProposalNumber>,
    acceptedValue: Option<string>)

  /** The accepted number and value are both absent or both present. */
  predicate Consistent(s: AcceptorState)
  {
    s.acceptedProposalNumber.Some? <==> s.acceptedValue.Some?
  }

  /** A fresh acceptor: floor at the sentinel, nothing accepted. */
  function Initial(serverId: string): (s: AcceptorState)
    ensures Consistent(s) && s.acceptedValue.None?
    ensures forall p: ProposalNumber :: p.number >= -1 ==> LessEq(s.minProposalNumber, p)
  {
    AcceptorState(serverId, Min(), None, None)
  }

  /** Prepare: raise the floor to the incoming number when that is at least the floor; reply with the accepted pair. */
  function PrepareStep(s: AcceptorState, msg: PrepareMessage): (r: (AcceptorState, PromiseMessage))
    // the new floor is the larger of the old floor and the incoming number
    ensures LessEq(s.minProposalNumber, r.0.minProposalNumber)
    ensures LessEq(msg.proposalNumber, r.0.minProposalNumber)
    ensures r.0.minProposalNumber == s.minProposalNumber || r.0.minProposalNumber == msg.proposalNumber
    // and nothing else changes
    ensures r.0 == s.(minProposalNumber := r.0.minProposalNumber)
    ensures r.1 == PromiseMessage(s.serverId, s.acceptedProposalNumber, s.acceptedValue)
    ensures Consistent(s) ==> PairConsistent(r.1)
  {
    NotLessEqIsGreater(s.minProposalNumber, msg.proposalNumber);
    var floor := if LessEq(s.minProposalNumber, msg.proposalNumber) then msg.proposalNumber else s.minProposalNumber;
    (s.(minProposalNumber := floor), PromiseMessage(s.serverId, s.acceptedProposalNumber, s.acceptedValue))
  }

  /** Accept: take the pair when its number is at least the floor; reply with the floor in any case. */
  function AcceptStep(s: AcceptorState, msg: AcceptMessage): (r: (AcceptorState, AcceptedMessage))
    ensures r.0.minProposalNumber == s.minProposalNumber && r.0.serverId == s.serverId
    ensures LessEq(s.minProposalNumber, msg.proposalNumber) ==>
      r.0.acceptedProposalNumber == Some(msg.proposalNumber) && r.0.acceptedValue == Some(msg.value)
    ensures Less(msg.proposalNumber, s.minProposalNumber) ==> r.0 == s
    ensures r.1 == AcceptedMessage(s.serverId, s.minProposalNumber)
    ensures Consistent(s) ==> Consistent(r.0)
  {
    NotLessEqIsGreater(s.minProposalNumber, msg.proposalNumber);
    var t := if LessEq(s.minProposalNumber, msg.proposalNumber)
      then s.(acceptedProposalNumber := Some(msg.proposalNumber), acceptedValue := Some(msg.value))
      else s;
    (t, AcceptedMessage(s.serverId, s.minProposalNumber))
  }

  /** `handle_message` on an acceptor: prepare and accept have handlers, the other kinds raise. */
  function HandleStep(s: AcceptorState, msg: PaxosMessage): (r: (AcceptorState, Result<PaxosMessage, Error>))
    ensures r.1.Err? <==> !Supports(AcceptorRole, msg)
    ensures r.1.Err? ==> r.0 == s && r.1.error == InvalidMessage(AcceptorRole, Kind(msg))
    ensures msg.Prepare? ==> r == (PrepareStep(s, msg.prepare).0, Ok(Promise(PrepareStep(s, msg.prepare).1)))
    ensures msg.Accept? ==> r == (AcceptStep(s, msg.accept).0, Ok(Accepted(AcceptStep(s, msg.accept).1)))
  {
    match msg
    case Prepare(p) =>
      var (t, reply) := PrepareStep(s, p);
      (t, Ok(Promise(reply)))
    case Accept(a) =>
      var (t, reply) := AcceptStep(s, a);
      (t, Ok(Accepted(reply)))
    case _ => (s, Err(InvalidMessage(AcceptorRole, Kind(msg))))
  }

  /** The state after handling a sequence of messages in order. */
  function Run(s: AcceptorState, msgs: seq<PaxosMessage>): AcceptorState
    decreases |msgs|
  {
    if msgs == [] then s else HandleStep(Run(s, msgs[..|msgs| - 1]), msgs[|msgs| - 1]).0
  }

  /** The floor never decreases: it is at least every earlier floor. */
  lemma {:induction false} RunFloorMonotone(s: AcceptorState, msgs: seq<PaxosMessage>, i: nat)
    requires i <= |msgs|
    ensures LessEq(Run(s, msgs[..i]).minProposalNumber, Run(s, msgs).minProposalNumber)
    decreases |msgs|
  {
    if i < |msgs| {
      var prefix := msgs[..|msgs| - 1];
      assert msgs[..i] == prefix[..i];
      RunFloorMonotone(s, prefix, i);
      LessEqTransitive(Run(s, msgs[..i]).minProposalNumber, Run(s, prefix).minProposalNumber,
        Run(s, msgs).minProposalNumber);
    } else {
      assert msgs[..i] == msgs;
    }
  }

  /** Once a prepare has been handled, the floor stays at or above its number. */
  lemma {:induction false} FloorCoversPrepares(s: AcceptorState, msgs: seq<PaxosMessage>, i: nat)
    requires i < |msgs| && msgs[i].Prepare?
    ensures LessEq(msgs[i].prepare.proposalNumber, Run(s, msgs).minProposalNumber)
  {
    assert msgs[..i + 1][..i] == msgs[..i];
    RunFloorMonotone(s, msgs, i + 1);
    LessEqTransitive(msgs[i].prepare.proposalNumber, Run(s, msgs[..i + 1]).minProposalNumber,
      Run(s, msgs).minProposalNumber);
  }

  /** The promise: after answering a prepare for `p`, an accept for any lower number changes nothing. */
  lemma AcceptBelowPromiseIgnored(s: AcceptorState, msgs: seq<PaxosMessage>, i: nat, a: AcceptMessage)
    requires i < |msgs| && msgs[i].Prepare? && Less(a.proposalNumber, msgs[i].prepare.proposalNumber)
    ensures AcceptStep(Run(s, msgs), a).0 == Run(s, msgs)
  {
    FloorCoversPrepares(s, msgs, i);
    if msgs[i].prepare.proposalNumber != Run(s, msgs).minProposalNumber {
      LessTransitive(a.proposalNumber, msgs[i].prepare.proposalNumber, Run(s, msgs).minProposalNumber);
    }
  }

  /** Starting consistent, the accepted number and value stay both absent or both present. */
  lemma {:induction false} RunKeepsConsistent(s: AcceptorState, msgs: seq<PaxosMessage>)
    requires Consistent(s)
    ensures Consistent(Run(s, msgs))
    decreases |msgs|
  {
    if msgs != [] {
      RunKeepsConsistent(s, msgs[..|msgs| - 1]);
    }
  }

  /** An acceptor; its fields change only through its two handlers. */
  class Acceptor {
    const serverId: string
    var minProposalNumber: ProposalNumber
    var acceptedProposalNumber: Option<ProposalNumber>
    var acceptedValue: Option<string>

    function State(): AcceptorState
      reads this
    {
      AcceptorState(serverId, minProposalNumber, acceptedProposalNumber, acceptedValue)
    }

    ghost predicate Valid()
      reads this
    {
      Consistent(State())
    }

    constructor (serverId: string)
      ensures Valid() && State() == Initial(serverId)
    {
      this.serverId := serverId;
      minProposalNumber := Min();
      acceptedProposalNumber := None;
      acceptedValue := None;
    }

    method OnPrepareMessage(msg: PrepareMessage) returns (reply: PromiseMessage)
      requires Valid()
      modifies this
      ensures Valid()
      ensures (State(), reply) == PrepareStep(old(State()), msg)
    {
      if LessEq(minProposalNumber, msg.proposalNumber) {
        minProposalNumber := msg.proposalNumber;
      }
      reply := PromiseMessage(serverId, acceptedProposalNumber, acceptedValue);
    }

    method OnAcceptMessage(msg: AcceptMessage) returns (reply: AcceptedMessage)
      requires Valid()
      modifies this
      ensures Valid()
      ensures (State(), reply) == AcceptStep(old(State()), msg)
    {
      if LessEq(minProposalNumber, msg.proposalNumber) {
        acceptedProposalNumber := Some(msg.proposalNumber);
        acceptedValue := Some(msg.value);
      }
      reply := AcceptedMessage(serverId, minProposalNumber);
    }

    method HandleMessage(msg: PaxosMessage) returns (r: Result<PaxosMessage, Error>)
      requires Valid()
      modifies this
      ensures Valid()
      ensures (State(), r) == HandleStep(old(State()), msg)
    {
      match msg
      case Prepare(p) =>
        var reply := OnPrepareMessage(p);
        r := Ok(Promise(reply));
      case Accept(a) =>
        var reply := OnAcceptMessage(a);
        r := Ok(Accepted(reply));
      case _ =>
        r := Err(InvalidMessage(AcceptorRole, Kind(msg)));
    }
  }
}
