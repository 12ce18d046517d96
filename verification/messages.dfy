/** The four Paxos message records, the two roles that receive them, and the errors a call can raise. */
module Messages {
  import opened Wrappers
  import opened ProposalNumbers

  /** Sent by a proposer to every acceptor to open a round. */
  datatype PrepareMessage = PrepareMessage(proposalNumber: ProposalNumber)

  /** An acceptor's answer to a prepare, reporting the pair it has accepted so far, if any. */
  datatype PromiseMessage = PromiseMessage(
    fromServerId: string,
    acceptedProposalNumber: Option<ProposalNumber>,
    acceptedValue: Option<string>)

  /** Sent by a proposer to every acceptor to have a value accepted. */
  datatype AcceptMessage = AcceptMessage(proposalNumber: ProposalNumber, value: string)

  /** An acceptor's answer to an accept, carrying its current promise floor. */
  datatype AcceptedMessage = AcceptedMessage(fromServerId: string, proposalNumber: ProposalNumber)

  /** The union `PaxosMessage` of the four records. */
  datatype PaxosMessage =
    | Prepare(prepare: PrepareMessage)
    | Promise(promise: PromiseMessage)
    | Accept(accept: AcceptMessage)
    | Accepted(accepted: AcceptedMessage)

  /** The class name under which a handler table finds a message. */
  datatype MessageKind = PrepareKind | PromiseKind | AcceptKind | AcceptedKind

  /** The receiving classes. */
  datatype Role = AcceptorRole | ProposerRole

  /** What a call can raise: a message the receiver has no handler for, a rejected proposal, a failed assertion. */
  datatype Error =
    | InvalidMessage(receiver: Role, kind: MessageKind)
    | Rejected
    | PreconditionFailed

  function Kind(msg: PaxosMessage): MessageKind
  {
    match msg
    case Prepare(_) => PrepareKind
    case Promise(_) => PromiseKind
    case Accept(_) => AcceptKind
    case Accepted(_) => AcceptedKind
  }

  /** The keys of each role's handler table. */
  function Handlers(role: Role): set<MessageKind>
  {
    match role
    case AcceptorRole => {PrepareKind, AcceptKind}
    case ProposerRole => {PromiseKind, AcceptedKind}
  }

  predicate Supports(role: Role, msg: PaxosMessage)
  {
    Kind(msg) in Handlers(role)
  }

  /** Every message kind is handled by exactly one of the two roles. */
  lemma ExactlyOneRoleHandles(msg: PaxosMessage)
    ensures Supports(AcceptorRole, msg) != Supports(ProposerRole, msg)
    ensures Supports(AcceptorRole, msg) <==> msg.Prepare? || msg.Accept?
  {
  }

  /** A promise reports an accepted number exactly when it reports an accepted value. */
  predicate PairConsistent(p: PromiseMessage)
  {
    p.acceptedProposalNumber.Some? <==> p.acceptedValue.Some?
  }
}
