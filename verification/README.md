# Single-decree Paxos: acceptor and proposer

A Dafny model of `paxos.py`, a small single-decree Paxos library. The library defines:

- proposal numbers: pairs of a round number and a server id, ordered like Python tuples, with the sentinel `(-1, "")`;
- the four protocol messages (prepare, promise, accept, accepted);
- `handle_message`, which dispatches on the message's class;
- two message handlers with mutable state:
  - the **acceptor** keeps a promise floor and the last accepted (number, value) pair;
  - the **proposer** keeps a round counter, the client's value, the current proposal number, the chosen value and two sets of replies.

The model has these modules:

- `ProposalNumbers` (`proposal_number.dfy`): the tuple order, including Python's string order, proved a strict total order.
- `Messages` (`messages.dfy`): the message records, the two roles' handler tables, and the errors a call can raise.
- `Quorums` (`quorums.dfy`): the quorum size and majority intersection.
- `Acceptors` (`acceptor.dfy`):
  - value-level step functions, plus lemmas about runs of messages (the floor only rises; a promise blocks every lower accept);
  - the `Acceptor` class, whose methods are proved equal to those step functions.
- `ProposerRules` (`proposer_rules.dfy`): the two quorum loops as functions of the order in which they visit the recorded replies, and what they decide whatever that order is.
- `Proposers` (`proposer.dfy`): the `Proposer` class. Each handler is proved against a specification predicate (`PromiseHandled`, `AcceptedHandled`). The loops over reply sets are methods with loop invariants. A ghost history of the numbers handed out shows they strictly increase.
- `Scenarios` (`scenarios.dfy`): the two runs of `test_paxos.py`, replayed against the classes through `HandleMessage`.
- `Enumerations` and `Wrappers`: helper modules. `Enumerations` holds sequences that list a set. `Wrappers` holds `Option`, `Result` and `Outcome`.

An exception raised by the source is a `Fail`/`Err` value:

- an unhandled message class is `InvalidMessage(role, kind)`;
- `raise Exception("Proposal rejected")` is `Rejected`;
- a failed `assert` (and the `AttributeError` of reading `curr_proposed_number` before any prepare) is `PreconditionFailed`.

A Python `set` has no fixed iteration order, so each proposer loop picks its next element nondeterministically (`:|`). Each loop's contract ties its result to the pure scan over *some* listing of the set.

`paxos.py` departs from textbook Paxos in these ways, and the model follows `paxos.py`:

- replies are kept in sets of whole messages, not keyed by sender. Two different promises from one acceptor count twice (`QuorumCountsMessagesNotSenders`);
- the sets are never cleared, and the quorum test is `len(...) == quorum_size`. Each quorum rule therefore fires only when a set first reaches that size, or again when a duplicate message does not grow it;
- on rejection `max_round_number` is *assigned* the reply's round, not raised to at least it;
- `chosen_value` is written inside the loop over accepted replies. A rejected round can therefore leave `chosen_value` set, depending on the order in which the loop visits the set (`RejectedRoundMayStillChoose`). `test_case_2` asserts `chosen_value is None`, but that holds only for one visiting order. `ConflictingRoundIsRejected` states both outcomes.

Two docstrings in `paxos.py` promise more than the code does, and the model follows the code:

- `get_prepare_message` (paxos.py:161-164) promises a number "higher than that of any observed proposals". Only a rejection moves the counter past this proposer's own rounds; a promise never moves it, so after a promise reporting `(7, "z")` to a proposer whose counter is 1, the next prepare is `(2, id)` (`NextPrepareMayTrailReportedNumber`).
- `on_promise_message` (paxos.py:187-189) promises to return an accept message once a quorum of promises has arrived. It always returns `None`; callers ask for the accept message with `get_accept_message`, as the tests do. The model's handler returns only its outcome.

## Model

| member | source | states |
|---|---|---|
| ProposalNumbers.StrLess | paxos.py:19 | Python's `<` on `str`; `StrLessIrreflexive`, `StrLessTransitive`, `StrLessTotal` and `StrLessAsymmetric` show it is a strict total order |
| ProposalNumbers.Less | paxos.py:4-19 | the tuple `<` on (number, server id); `LessIrreflexive`, `LessTransitive` and `LessTotal` show it is a strict total order |
| ProposalNumbers.LessEq | paxos.py:108 | the tuple `>=` read from the other side; `NotLessEqIsGreater` shows it is the complement of `>` |
| ProposalNumbers.Min | paxos.py:21-23 | the sentinel `(-1, "")`; `MinIsLeast` shows it is at or below exactly the numbers with round at least -1 |
| ProposalNumbers.LessIrreflexive | paxos.py:4-19 | no proposal number is below itself |
| ProposalNumbers.LessTransitive | paxos.py:4-19 | tuple `<` is transitive, including the code-point order on server ids |
| ProposalNumbers.LessTotal | paxos.py:4-19 | any two proposal numbers are equal or ordered one way |
| ProposalNumbers.NotLessEqIsGreater | paxos.py:108 | `not (a >= b)` is exactly `b > a`, so the acceptor's `>=` tests and the proposer's `>` tests are complements |
| ProposalNumbers.LessEqTransitive | paxos.py:4-19 | tuple `<=` is transitive |
| ProposalNumbers.StrLessIrreflexive | paxos.py:19 | Python `str` `<` is irreflexive |
| ProposalNumbers.StrLessTransitive | paxos.py:19 | Python `str` `<` is transitive |
| ProposalNumbers.StrLessTotal | paxos.py:19 | any two strings are equal or ordered one way |
| ProposalNumbers.StrLessAsymmetric | paxos.py:19 | `a < b` excludes `b < a` on strings |
| ProposalNumbers.StrLessCommonPrefix | paxos.py:19 | a common prefix does not change how two strings compare |
| ProposalNumbers.MinIsLeast | paxos.py:21-23 | the sentinel `(-1, "")` is at or below exactly the numbers whose round is at least -1 |
| ProposalNumbers.DocstringOrder | paxos.py:12-15 | the docstring's example `(4, 'C') > (4, 'B') > (3, 'Z')` holds |
| Messages.Kind | paxos.py:79 | the class name a message is dispatched on; one kind per record |
| Messages.Handlers | paxos.py:97-100 | the keys of each class's handler table; `ExactlyOneRoleHandles` shows the two tables split the four kinds |
| Messages.ExactlyOneRoleHandles | paxos.py:97-100 | every message kind has a handler in exactly one of the two classes, and acceptors handle exactly prepare and accept |
| Quorums.QuorumSize | paxos.py:139-142 | fails exactly when there are fewer than 3 acceptors; otherwise `q` is a strict majority (`n < 2q`) and the smallest one (`2(q-1) <= n`) |
| Quorums.QuorumsIntersect | paxos.py:142 | two quorum-sized subsets of the acceptors share an acceptor |
| Acceptors.Initial | paxos.py:94-96 | a new acceptor has accepted nothing and its floor is at or below every number with round at least -1 |
| Acceptors.PrepareStep | paxos.py:102-115 | the new floor is at or above both the old floor and the incoming number and is one of them; nothing else changes; the reply carries the acceptor's id and its current accepted pair, which is well formed |
| Acceptors.AcceptStep | paxos.py:117-121 | the floor never moves; a number at or above the floor replaces the accepted pair; a lower number changes nothing; the reply carries the floor |
| Acceptors.HandleStep | paxos.py:73-85 | fails with the receiver and kind exactly for promise and accepted messages, changing nothing; otherwise it is the prepare or accept step |
| Acceptors.Run | paxos.py:73-85 | the acceptor after `handle_message` on each message of a sequence in turn; `RunFloorMonotone`, `FloorCoversPrepares` and `RunKeepsConsistent` state what every run keeps |
| Acceptors.RunFloorMonotone | paxos.py:108-111 | over any run of messages, the floor after a prefix is at or below the floor after the whole run |
| Acceptors.FloorCoversPrepares | paxos.py:108-111 | after a prepare has been handled, the floor stays at or above its number |
| Acceptors.AcceptBelowPromiseIgnored | paxos.py:117-121 | after a prepare for `p`, an accept numbered below `p` leaves the acceptor unchanged |
| Acceptors.RunKeepsConsistent | paxos.py:117-121 | the accepted number and value stay both absent or both present over any run |
| Acceptors.Acceptor.constructor | paxos.py:94-100 | the fields equal `Initial(serverId)` |
| Acceptors.Acceptor.OnPrepareMessage | paxos.py:102-115 | the new fields and the reply are those of `PrepareStep` on the old fields |
| Acceptors.Acceptor.OnAcceptMessage | paxos.py:117-121 | the new fields and the reply are those of `AcceptStep` on the old fields |
| Acceptors.Acceptor.HandleMessage | paxos.py:73-85 | the new fields and the result are those of `HandleStep` |
| ProposerRules.PromiseStep | paxos.py:202-213 | one pass of the promise loop; `ScanPromisesInvariant` states what a run of these steps keeps |
| ProposerRules.ScanPromises | paxos.py:198-213 | the promise loop over one visiting order, from the sentinel and no value; pinned down by `ScanPromisesInvariant`, `ScanPromisesAdoptsHighest` and `ScanPromisesFailsOnlyIfMalformed` |
| ProposerRules.Adopt | paxos.py:214-216 | the proposed value after the loop: the adopted value if there is one; `ScanPromisesAdoptsHighest` shows it follows the highest-acceptance rule |
| ProposerRules.ScanPromisesInvariant | paxos.py:198-213 | after any prefix of the promise loop: it failed only on a promise with one of number and value but not the other; otherwise `highest` bounds every reported number, and the adopted value is the one reported with `highest`, which is above the sentinel |
| ProposerRules.ScanPromisesAdoptsHighest | paxos.py:198-216 | over any listing of the recorded promises, the value afterwards comes from a promise with the highest reported number when some promise reports an acceptance above the sentinel, and is the client's value otherwise |
| ProposerRules.ScanPromisesFailsOnlyIfMalformed | paxos.py:203-212 | the loop raises only if some recorded promise has one of number and value without the other |
| ProposerRules.ScanPromisesSnoc | paxos.py:202 | visiting one more promise is one more step of the loop |
| ProposerRules.ScanPromisesFailureIsFinal | paxos.py:204-212 | once the promise loop has raised, the promises not yet visited change nothing |
| ProposerRules.FailedScanCompletes | paxos.py:204-212 | stopping the promise loop at the raising promise gives a result that some full listing of the set also raises on |
| ProposerRules.VisitPromise | paxos.py:202-213 | one iteration over a set: the listing grows by the visited promise, the scan takes one step, and a raise there is a raise of some listing of the whole set |
| ProposerRules.SentinelReportNeverRaises | paxos.py:208-212 | a promise reporting the sentinel number without a value never makes the loop raise, since `(-1, "") > highest` is false |
| ProposerRules.AcceptedStep | paxos.py:226-234 | one pass of the accepted loop; `ScanAcceptedInvariant` states what a run of these steps keeps |
| ProposerRules.ScanAccepted | paxos.py:226-234 | the accepted loop over one visiting order; pinned down by `ScanAcceptedInvariant` and `ScanAcceptedFollowsRule` |
| ProposerRules.ScanAcceptedSnoc | paxos.py:226 | visiting one more reply is one more step of the loop |
| ProposerRules.ScanAcceptedInvariant | paxos.py:226-234 | the accepted loop rejects exactly when some visited reply is above the round's number; then the round counter takes that reply's round and the chosen value is the old one or the proposed one; otherwise the counter is unchanged and the chosen value is the proposed one (or the old one if nothing was visited) |
| ProposerRules.ScanAcceptedFollowsRule | paxos.py:222-234 | over any listing of a non-empty reply set: rejected exactly when some reply is above the round's number, the counter then set from such a reply; otherwise the proposed value is chosen and the counter is kept |
| ProposerRules.ScanAcceptedRejectionIsFinal | paxos.py:226-232 | once the loop has raised, further replies change nothing |
| ProposerRules.RejectedScanCompletes | paxos.py:226-232 | stopping the loop at the raising reply gives the same result as some full listing of the set |
| ProposerRules.VisitReply | paxos.py:226-234 | one iteration over a set: the listing grows by the visited reply, the scan takes one step, and a rejection there is the result of some listing of the whole set |
| ProposerRules.RejectedRoundMayStillChoose | paxos.py:226-234 | with one reply at the round's number and one above it, both visiting orders reject; one leaves the proposed value chosen and the other leaves nothing chosen |
| Proposers.RejectionNeverLowersRound | paxos.py:231 | while the counter equals the current round's number, handling a reply never lowers it, and a rejection names a recorded reply above the round |
| Proposers.QuorumCountsMessagesNotSenders | paxos.py:192-193 | two different promises from one acceptor make a set of size two with one sender |
| Proposers.PromiseBelowQuorum | paxos.py:192-193 | a promise that leaves the set's size different from the quorum size is only recorded |
| Proposers.PromiseQuorumScanned | paxos.py:193-216 | at the quorum size, a completed scan over a listing of the set gives the adopted value |
| Proposers.PromiseQuorumRaised | paxos.py:203-212 | at the quorum size, when some listing of the set makes the loop raise, the handler may fail; some recorded promise is then malformed |
| Proposers.AcceptedBelowQuorum | paxos.py:221-222 | a reply that leaves the set's size different from the quorum size is only recorded |
| Proposers.AcceptedQuorumBeforePrepare | paxos.py:222-225 | at the quorum size with no round opened, the handler fails and changes only the set |
| Proposers.AcceptedQuorumScanned | paxos.py:222-234 | at the quorum size, the scan over a listing of the set gives the outcome, chosen value and counter, and the counter ends at or above the round's number |
| Proposers.IssuedInOrderRaised | paxos.py:231 | raising the counter to at least the current round keeps the handed-out numbers within the counter |
| Proposers.PromiseRecorded | paxos.py:192-193 | below the quorum size a promise only joins the set, and the call passes |
| Proposers.PromiseQuorumKeepsValue | paxos.py:198-216 | at the quorum size with no reported acceptance, the client's value is kept |
| Proposers.PromiseQuorumAdoptsReported | paxos.py:198-216 | at the quorum size with exactly one reported acceptance, its value replaces the client's value |
| Proposers.SentinelReportDoesNotFail | paxos.py:202-213 | when every recorded promise is well formed or reports the sentinel number, the handler passes |
| Proposers.NextPrepareMayTrailReportedNumber | paxos.py:160-175 | a promise never moves the round counter, so the next prepare `(counter + 1, id)` can be below a number the promise reported |
| Proposers.AcceptedRecorded | paxos.py:221-222 | below the quorum size a reply only joins the set |
| Proposers.AcceptedQuorumChooses | paxos.py:222-234 | at the quorum size with no reply above the round's number, the proposed value becomes the chosen value |
| Proposers.AcceptedQuorumRejects | paxos.py:226-232 | at the quorum size with exactly one reply above the round's number, the call fails with `Rejected`, the counter takes that reply's round, and the chosen value is the old one or the proposed one |
| Proposers.Proposer.Init | paxos.py:137-149 | with at least 3 acceptors: majority quorum size, counter 0, nothing proposed or chosen, both reply sets empty |
| Proposers.Proposer.Create | paxos.py:137-149 | fails exactly when there are fewer than 3 acceptors; otherwise a fresh proposer in the initial state |
| Proposers.Proposer.ProposeValue | paxos.py:151-158 | passes exactly when no value was set and then sets it; a second call fails and changes nothing |
| Proposers.Proposer.GetPrepareMessage | paxos.py:160-175 | the counter rises by one; the message's number is `(counter, own id)` and becomes the current round; it is above every number this proposer handed out before |
| Proposers.Proposer.GetAcceptMessage | paxos.py:177-183 | succeeds exactly when a round is open and a value is set, carrying both; fails otherwise |
| Proposers.Proposer.ScanPromiseQuorum | paxos.py:198-213 | if the loop raised, the promise scan over some listing of the set raises; otherwise its result is the promise scan over some listing of the set |
| Proposers.Proposer.OnPromiseMessage | paxos.py:185-216 | the state change and outcome satisfy `PromiseHandled`: the promise joins the set; at the quorum size the value of a highest reported acceptance, if any, replaces the proposed value; it fails only when the scan over some listing of the set raises, which needs a malformed promise |
| Proposers.Proposer.ScanAcceptedQuorum | paxos.py:226-234 | the result is the accepted scan over some listing of the set |
| Proposers.Proposer.OnAcceptedMessage | paxos.py:218-234 | the state change and outcome satisfy `AcceptedHandled`: the reply joins the set; at the quorum size the round is rejected exactly when a recorded reply is above its number, and otherwise the proposed value is chosen |
| Proposers.Proposer.HandleMessage | paxos.py:73-85 | promise and accepted go to their handlers; prepare and accept fail with `InvalidMessage` and change nothing |
| Scenarios.ProposerIdsOrdered | test_paxos.py:9-10 | `"proposer-1" < "proposer-2"` under Python's string order, and not the reverse |
| Scenarios.FirstRoundsOrdered | test_paxos.py:9-10 | `(1, "proposer-1") < (1, "proposer-2")` |
| Scenarios.AcceptorIdsDistinct | test_paxos.py:7 | the three acceptor ids differ |
| Scenarios.PromiseAbove | paxos.py:108-115 | a prepare above the floor raises it and is answered with the accepted pair |
| Scenarios.PromiseBelow | paxos.py:108-115 | a prepare below the floor changes nothing but is still answered |
| Scenarios.AcceptAtFloor | paxos.py:118-121 | an accept at the floor is taken and answered with the floor |
| Scenarios.AcceptBelow | paxos.py:118-121 | an accept below the floor changes nothing and is answered with the floor |
| Scenarios.StartRound | paxos.py:151-175 | proposing a value and opening a round sets the value, the round `(counter + 1, id)` and the counter |
| Scenarios.AcceptFor | paxos.py:177-183 | with a round and a value, the accept message carries both |
| Scenarios.FirstPromise | paxos.py:192-193 | with quorum size two, the first promise is only recorded |
| Scenarios.SecondPromise | paxos.py:193-216 | a second, different promise without an accepted pair completes the quorum and keeps the value |
| Scenarios.SecondPromiseAdopting | paxos.py:198-216 | a second promise completes the quorum, and the first one's reported value is adopted |
| Scenarios.FirstAccepted | paxos.py:221-222 | the first reply is only recorded |
| Scenarios.SecondAccepted | paxos.py:222-234 | a second, different reply at the round's number chooses the proposed value |
| Scenarios.SecondAcceptedRejected | paxos.py:226-232 | a second reply above the round's number rejects the round and sets the counter from it |
| Scenarios.CaseOneP1Prepares | test_paxos.py:13-16 | acceptors 1 and 2 promise round `(1, "proposer-1")` and report nothing accepted |
| Scenarios.CaseOneP1Accepts | test_paxos.py:19-25 | after its two promises proposer-1 keeps "foo"; acceptor 2 then holds "foo" at `(1, "proposer-1")`, and both acceptors reply with that number |
| Scenarios.CaseOneP1Learns | test_paxos.py:28-29 | proposer-1 chooses "foo" |
| Scenarios.CaseOneP2Prepares | test_paxos.py:32-35 | acceptor 2 promises `(1, "proposer-2")` and reports ("foo", `(1, "proposer-1")`); acceptor 3 reports nothing |
| Scenarios.CaseOneP2Accepts | test_paxos.py:38-44 | after its two promises proposer-2 adopts "foo" in place of "bar"; acceptors 2 and 3 reply with `(1, "proposer-2")` |
| Scenarios.CaseOneP2Learns | test_paxos.py:47-48 | proposer-2 chooses "foo" |
| Scenarios.CaseOneFirstRound | test_paxos.py:13-29 | proposer-1 chooses "foo", and acceptor 2 holds "foo" at `(1, "proposer-1")` |
| Scenarios.CaseOneSecondRound | test_paxos.py:32-48 | proposer-2 chooses "foo" |
| Scenarios.LaterProposerAdoptsAcceptedValue | test_paxos.py:4-51 | both proposers end with "foo" chosen |
| Scenarios.CaseTwoP1Prepares | test_paxos.py:63-68 | acceptor 1 promises `(1, "proposer-1")`; proposer-1 records that promise only |
| Scenarios.CaseTwoP2Prepares | test_paxos.py:71-74 | acceptors 2 and 3 promise `(1, "proposer-2")` and report nothing |
| Scenarios.CaseTwoP2Accepts | test_paxos.py:77-84 | after its two promises proposer-2 keeps "bar" and asks for it at `(1, "proposer-2")`; acceptor 3 replies with that number |
| Scenarios.CaseTwoP1CompletesPromises | test_paxos.py:87-91 | acceptor 2 answers proposer-1's stale prepare without moving its floor; proposer-1 completes its quorum and asks for "foo" at `(1, "proposer-1")` |
| Scenarios.CaseTwoP1Accepts | test_paxos.py:94-95 | acceptor 1 replies with `(1, "proposer-1")`; acceptor 2, promised to `(1, "proposer-2")`, stays unchanged and replies with that higher number |
| Scenarios.CaseTwoA2AcceptsBar | test_paxos.py:98 | acceptor 2 accepts "bar" at `(1, "proposer-2")` |
| Scenarios.CaseTwoP2Learns | test_paxos.py:101-102 | proposer-2 chooses "bar" |
| Scenarios.CaseTwoP1Rejected | test_paxos.py:105-110 | proposer-1's round fails with `Rejected`; its chosen value is None or "foo" |
| Scenarios.CaseTwoOpening | test_paxos.py:63-84 | afterwards acceptor 1 is promised to `(1, "proposer-1")` and acceptor 2 to `(1, "proposer-2")`, proposer-1 holds one promise, and proposer-2 has opened `(1, "proposer-2")` with "bar" |
| Scenarios.CaseTwoClosing | test_paxos.py:86-112 | proposer-1 is rejected and proposer-2 chooses "bar" |
| Scenarios.ConflictingRoundIsRejected | test_paxos.py:54-112 | proposer-2 chooses "bar"; proposer-1 is rejected with None or "foo" as its chosen value |

## Left out

- `print(msg.proposal_number)` before the rejection and the text of every exception message: output and wording only.
- Persistence of the acceptor's fields and the round counter (the "should be persisted" comments): not implemented by the source either.
- Transport and broadcasting of messages: callers pass messages by hand; this is not part of the source.
- Concurrency: each object is handled by one caller at a time, as in the tests.
- `handle_message` dispatches through a dictionary keyed by class name. The model dispatches by a `match` on the message kind and states each class's handler table as a set of kinds.
- A Python `assert` disappears under `python -O`. The model always treats a failed assert as a `PreconditionFailed` outcome.
- Proposers.Proposer.OnAcceptedMessage: the model does not claim that the round counter never decreases, because the source assigns it. It only states that the counter does not drop while it equals the current round's number (`RejectionNeverLowersRound`).
- Proposers.Proposer.Init: requires at least 3 acceptors. The failing case of the source constructor is `Proposers.Proposer.Create`.
- Scenarios.CaseTwoP1Rejected: test_case_2 asserts that proposer-1's chosen value is None. That holds only for one iteration order of the reply set, so the model allows None or "foo".
- The two quorum loops are static methods over the recorded set. The handlers write their results back to the fields afterwards, instead of updating the fields inside the loop.
