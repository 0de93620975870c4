# libss7, verified

libss7 is a user-space SS7 stack: MTP2 signalling links, MTP3 network management and ISUP call
control on top, and one timer table for all of them. This project models the parts of it where
the behaviour is hard to see from one function and proves what they promise over every run.

`dafny verify dfyconfig.toml` checks everything. Each layer has a specification in functions over
values (`*Spec.dfy`), the code in its own imperative form (classes whose methods change fields,
arrays and lists, each method proved to leave exactly the state the function gives), and files of
results about the functions.

| file | what it holds |
|---|---|
| Mtp2Spec, Mtp2Link | one MTP2 link: header numbering, unacknowledged list, retransmission cursor, alignment states and timers |
| ErrorCorrection, ErrorCorrectionRuns, ErrorCorrectionRecovery, ErrorCorrectionWindow | two such links joined by lossy channels: the invariant of the go-back-N protocol, what it means for users, recovery, and the largest safe window |
| ErrorCorrectionLossless | failing writes alone: what is written next, and that they cost no retransmission |
| Alignment, AlignmentReactions | alignment of a link over every sequence of units and timers: what never happens, and what each unit, timer and call must bring about in each state |
| LinkReception | receiving on one link: its alignment, its messages, its requests and its acknowledgements |
| Mtp3Spec, Mtp3Network | the message lists of links and routes: changeover, changeback, rerouting |
| Mtp3Conservation, Mtp3Runs | every message is in exactly one list, or freed, or refused |
| Mtp3Choice, Mtp3Refusal | which link a message is sent on, and that it is refused only when no link qualifies |
| Mtp3Local | operations that hand nothing over change one link, in one exact way |
| Mtp3States | link and route states over every run, as two small automata; when a declaration is unanswered and when T6 runs |
| Mtp3Changeover | what a changeover hands over, in which order, what it frees, and what comes back to the link |
| Mtp3Invariants, Mtp3Rerouting | sizes count the CRC once; no traffic on prohibited or held routes |
| Mtp3Preparation | when taking over the lists of MTP2 loses nothing |
| Mtp3Scenarios | a run that loses a message, a run that leaves one behind, and the order of sending over every run |
| RoutingLabel, Octets | point codes in the routing label, octets |
| Options, Switches | a value that may be absent, the two switch types |
| Scheduler | the timer table |
| IsupSpec, IsupCalls, IsupTimers | calls, their flags, their timers, and the slots those hold |
| IsupEffects | starting and stopping timers in the shared table, exactly |
| IsupReactions, IsupRequests, IsupExpiries | what each received message, each request and each expiry does to its call |
| IsupHangup | releases and resets over every run, and what is sent again |
| IsupChase | no unanswered request is left without a timer, and what a circuit reset abandons |
| IsupGroupReset | when the timers of a group reset run without one |
| IsupNumber, IsupFraming, IsupIam | digits, message layout, and the ITU initial address message |
| IsupMessages | every message of the message table on both switch types: contents, size, and the way back |
| IsupParameters | when the parameters outside the ITU initial address message come back |
| IsupGroup, IsupGroupCall | circuit group blocking |

Choices made while modelling:

- Operating-system calls become parameters: whether a write succeeds, whether the event ring and
  the timer table have room, the clock, and what application callbacks answer.
- `mtp2_transmit` has no window check. Here new transmissions are guarded by a window, which is a
  parameter: the protocol results hold for every window of at most 127 units, and
  `ErrorCorrectionWindow.WindowIsTight` shows that no larger window is safe: with 128 units lost, B's
  first answer releases them all and B takes message 129 as message 1 (`WindowIsNeeded`).
- A retransmitted unit gets a new FIB and BSN but keeps its old BIB (mtp2.c:307-310), so user data
  flows from A to B only; B answers with fill-in units.
- A list head (`struct ss7_msg **`) is an address, `Place`; writing through it changes that one list.
- `mtp3_changeover` marks the changeover completed only after transmitting, so traffic can come back
  to the changeover buffer of the link it was taken from, and lies there when the changeover is completed
  (`Mtp3Scenarios.ComesBackRun` is such a run). `Mtp3Changeover.OwnTrafficComesBack` says exactly when:
  changeover initiated, link and point up, route open, and this link chosen. `T2TrafficComesBack` says the
  same of T2.
- Unacknowledged units are handed over as they lie in the list, newest first (mtp3.c:878), so a changeover
  keeps the order of sending exactly when at most one user message is unacknowledged
  (`Mtp3Changeover.SendingOrderIsKept`, over runs `Mtp3Scenarios.SendingOrderOverRuns`).
- The guard of the COO branch (mtp3.c:1190) joins two inequalities with "or" and is always true, so
  preparing a changeover may start from any state; the model does the same.
- `net_mng_send` gives up a changeback whenever SENT_CBD is set (mtp3.c:1622-1626), whatever the changeover
  state is by then. SENT_CBD outlives a changeback that the peer's declaration completes, so a link that
  fails again can have its changeover initiated with SENT_CBD set. When T4 then finds no link for its
  declaration, the lists taken over from MTP2 are orphaned and the next preparation loses them:
  `Mtp3Scenarios.AbandonRunLoses` is such a run. `ss7_check` can orphan them too, when it marks a link that
  is not tested as changed over (mtp3.c:489-494). In runs that do neither to a link whose changeover is
  initiated nothing is lost, and `Mtp3Preparation.PrepareLosesExactly` gives the condition in any state.
- The status array of a call is followed by a padding octet, which a received range of 255 sets; the model
  has it (`IsupGroup.STATUS_SIZE`). An end circuit below the first makes a negative range, for which the
  transmit function returns one, zero or less (`IsupGroup.ParmLen`).
- `mtp3_add_set_route` takes the point code as an unsigned short, so a route for a code of more than
  sixteen bits is never found again (`Mtp3Rerouting.RouteIsForShortCodes`).
- A group query response is assembled but has a parameter without a receiver, so `isup_receive` drops
  it; it is the only message of the table of which this is true (`IsupMessages.EveryMessageIsParsed`).
- A negative delay can leave negative microseconds in a slot; `Scheduler.DueIsLateExactly` says when
  such a slot is found due too late.
- `isup_clear_callflags` stops the timers of SENT_IAM, SENT_CGB and SENT_CGU only;
  `IsupCalls.ClearingFlagsIsSafe` says for exactly which flags a caller may use it.
- A circuit reset stops all timers and keeps the flags of unanswered blockings and unblockings, and the release
  complete does not clear them (isup.c:4968-4971, 3884-3894): they stay outstanding with no timer left to repeat
  them (`IsupChase.ResetAbandons`), though without a reset, and with
  room in the timer table, no request is ever left so (`IsupChase.NeverAbandoned`).
- The branches of T20 and T21 run on into those of T23 and T22 (isup.c:5398-5422): an unanswered group unblocking
  also resets the group, and its acknowledgement does not stop that (`IsupGroupReset.UnblockingStartsReset`,
  `UnblockedStaysReset`); otherwise T22 and T23 run only while a group reset is outstanding
  (`IsupGroupReset.ResetTimersAreGuarded`).
- A circuit group type of 4 or more is sent in two bits but compared in full, so its answer never
  matches (`IsupGroup.EchoIsAccepted`).

## Model

| member | source | states |
|---|---|---|
| ErrorCorrection.Reachable | mtp2.c:285-360 | for every window of at most 127 units the protocol invariant (numbering, channels in order, indicator phases) holds after every sequence of queueing, writing, failing writes, losing and receiving |
| ErrorCorrection.KeepsSendA | mtp2.c:285-360 | transmitting, with a retransmission, a new message or a fill-in unit, successful or not, keeps the invariant |
| ErrorCorrection.KeepsRecvB | mtp2.c:727-768 | taking in a unit at B, accepted, out of sequence or ignored, keeps the invariant |
| ErrorCorrection.KeepsRecvA | mtp2.c:925-944 | taking in an answer at A, with its release and its request, keeps the invariant |
| ErrorCorrection.FindInWindow | mtp2.c:399-443 | within a window of 127 a BSN meets exactly the unit with that number, despite numbers modulo 128 |
| ErrorCorrectionRuns.DeliveredInOrder | mtp2.c:727-768 | over every run what B passes up is a prefix of what was queued at A: in order, nothing twice, nothing skipped |
| ErrorCorrectionRuns.AcknowledgementSound | mtp2.c:229-236 | the queued history is released messages, all delivered, then tx_buf oldest first, then tx_q; FSNs run down from curfsn one by one modulo 128 |
| ErrorCorrectionRuns.ReleasesWhatWasDelivered | mtp2.c:399-443 | an answer releases exactly the units up to its BSN and never one that B has not delivered |
| ErrorCorrectionRuns.CursorNeverDangles | mtp2.c:238-254 | retransmit_pos is null or a unit of tx_buf in every reachable state, so no acknowledgement frees the unit it stands on |
| ErrorCorrectionRuns.RequestsFindSomething | mtp2.c:256-274 | following a retransmission request always finds units and starts at the first message B lacks |
| ErrorCorrectionRuns.PendingWorkIsFlagged | mtp2.c:362-383 | while A has something to send or resend its write flag is set |
| ErrorCorrectionRuns.RequestsAlternate | mtp2.c:742-757 | B inverts BIB again only on a unit written after A followed the last request; A inverts FIB only to follow it |
| ErrorCorrectionRuns.CycleEmitsOldestFirst | mtp2.c:294-316 | an uninterrupted retransmission emits the units from the cursor oldest first, with current FIB and BSN, before anything new, and leaves both lists as they were |
| ErrorCorrectionWindow.WindowIsNeeded | mtp2.c:317-345 | for every window of 128 or more and every 129 messages whose last differs from the first there is a run whose delivered list is not a prefix of the queued one |
| ErrorCorrectionWindow.WindowIsTight | mtp2.c:285-360 | delivery is in order over every run exactly for windows of at most 127 units |
| ErrorCorrectionWindow.AnswerReleasesAll | mtp2.c:399-443 | after 128 lost units the first answer of B frees all of them, though B delivered none |
| ErrorCorrectionRecovery.BReacts | mtp2.c:727-768 | which units B accepts, asks again for, or ignores, by message number and phase |
| ErrorCorrectionRecovery.AnswerSettles | mtp2.c:445-450 | after A has drained, B's answer either empties tx_buf or puts both ends in step |
| ErrorCorrectionRecovery.TwoExchangesRecover | mtp2.c:256-274 | from every reachable in-service state with empty channels and no more outstanding messages than the window two loss-free exchanges deliver everything queued and leave nothing unacknowledged |
| ErrorCorrectionLossless.FailedMessageIsNext | mtp2.c:346-360 | a new message whose write failed is the next unit written, with its FSN, before any fill-in unit or later message, however often the write fails again |
| ErrorCorrectionLossless.FailedUnitIsNext | mtp2.c:285-360 | a retransmission or fill-in unit whose write failed is the next unit written too |
| ErrorCorrectionLossless.FailedWritesCostNothing | mtp2.c:346-360 | over every run that loses no unit, whatever writes fail, B never asks for a retransmission and A never follows one; what was delivered, is under way and is still to be written makes up everything queued |
| Mtp2.Mtp2.ResetMtp | mtp2.c:145-159 | the lists are emptied and the numbers set as for a new link |
| Mtp2.Mtp2.InitMtp2Header | mtp2.c:94-111 | a new unit takes the next FSN; a negative acknowledgement inverts BIB |
| Mtp2.Mtp2.UpdateRetransmitPos | mtp2.c:238-254 | walking the newest-first list moves the cursor one unit towards the newest, then off it |
| Mtp2.Mtp2.MtpRetransmit | mtp2.c:256-274 | the cursor goes to the oldest unit and FIB is inverted |
| Mtp2.Mtp2.UpdateTxbuf | mtp2.c:399-443 | the list is cut at the acknowledged unit; the heap list is the value list of the specification |
| Mtp2.Mtp2.Msu | mtp2.c:362-383 | a message goes to the end of tx_q with the CRC counted |
| Mtp2.Mtp2.TakeUnit | mtp2.c:285-345 | retransmission before new message before fill-in; heap lists and cursor follow the specification |
| Mtp2.Mtp2.MtpTransmit | mtp2.c:285-360 | one call of mtp2_transmit, written or not, is the specification's transmit step; what a failed write must leave is `FailedMessageIsNext` |
| Mtp2.Mtp2.MtpSetState | mtp2.c:523-650 | state, timers, fill-in type and events of a change of state |
| Mtp2.Mtp2.MtpLssuRx | mtp2.c:652-725 | reaction to a status unit, the specification's, which the tables of AlignmentReactions determine |
| Mtp2.Mtp2.MtpFisuRx | mtp2.c:445-471 | reaction to a fill-in unit |
| Mtp2.Mtp2.MtpMsuRx | mtp2.c:727-768 | acceptance, re-request or neglect of a message unit |
| Mtp2.Mtp2.MtpReceive | mtp2.c:925-944 | one received unit is the specification's receive step |
| Mtp2.Mtp2.MtpStart | mtp2.c:770-779 | emergency and alignment are started |
| Mtp2Spec.FindFsn | mtp2.c:399-420 | the place of the newest unit with an FSN, or the length of the list |
| Alignment.AlwaysDisciplined | mtp2.c:523-650 | over every run T2 is armed only in NOTALIGNED, T3 in ALIGNED, T4 in PROVING, T1 in ALIGNEDREADY; the fill-in fits the state; LINK_UP and LINK_DOWN alternate |
| Alignment.InServiceCameThroughProving | mtp2.c:445-471 | every stretch in service was entered from ALIGNEDREADY and that from PROVING |
| Alignment.ReadyCameFromProving | mtp2.c:500-508 | every stretch in ALIGNEDREADY began in PROVING |
| Alignment.ReadyLinksAreNotReset | mtp2.c:186-212 | a ready or in-service link never resets its lists and numbers when it transmits |
| AlignmentReactions.NotAlignedReacts | mtp2.c:652-725 | over every run, exactly what brings a link out of NOTALIGNED and where to: a new SIO, SIN or SIE; T2, a stop or T7 starts over; what it then sends, SIE in an emergency and else SIN, and which timer runs |
| AlignmentReactions.AlignedReacts | mtp2.c:652-725 | the same in ALIGNED: every new status but SIOS starts proving; SIOS, T3, a stop or T7 starts over |
| AlignmentReactions.ProvingReacts | mtp2.c:445-508 | the same in PROVING: T4 or a first FISU ends it, a new SIO goes back without a timer, SIOS, a stop or T7 starts over |
| AlignmentReactions.ReadyReacts | mtp2.c:445-486 | the same in ALIGNEDREADY: a message or a first FISU puts the link into service and reports LINK_UP, with room for the event; a new status, T1, a stop or T7 starts over |
| AlignmentReactions.ServiceEnds | mtp2.c:636-646 | over every run a link leaves service exactly on a new status unit, a stop or T7, with room for the event; it then reports LINK_DOWN, sends SIO and is NOTALIGNED |
| AlignmentReactions.IdleStarts | mtp2.c:770-784 | exactly what starts a link that was never started |
| AlignmentReactions.RunRemembers | mtp2.c:652-665 | over every run the link knows the last unit received, and its emergency flag holds exactly when the last start or an SIE since asked for it |
| AlignmentReactions.RequestIsExact | mtp2.c:523-634 | mtp2_setstate for every state asked for, in the states between idle and in service: state, timers, fill-in and event |
| AlignmentReactions.ServiceIsKept | mtp2.c:636-646 | a link in service stays so when service is asked for, and an alarmed one keeps its state |
| AlignmentReactions.FillInFitsState | mtp2.c:186-227 | over every run, what a link with nothing to send fills in in each state, with which numbers, and when it resets its lists |
| LinkReception.ReceptionAligns | mtp2.c:925-944 | whatever the lists of a link hold, a received unit moves its alignment as the alignment runs say, and error correction only adds to the wish to write |
| LinkReception.MessagesPassedUp | mtp2.c:727-768 | a message is passed up exactly by a link that is ready or in service, in step with the FIB, with the next FSN; it is then acknowledged |
| LinkReception.RetransmissionAskedFor | mtp2.c:445-456 | a retransmission is asked for exactly on a gap: a message that is neither the last nor the next, or a FISU in service with another FSN |
| LinkReception.ReleaseIsExact | mtp2.c:399-443 | an acknowledgement frees the newest unit with its number and all older ones, and leaves the cursor on a freed unit exactly when its unit or a newer one is acknowledged |
| LinkReception.WalkIsExact | mtp2.c:238-254 | the walk comes to the next newer unit, from the newest to none, from none to the oldest |
| Mtp3Spec.FirstAvailable | mtp3.c:221-243 | what is offered is a list that exists and that some link offers; which one is `Mtp3Choice.ChoiceIsExact` |
| Mtp3Spec.WithList | mtp3.c:566-626 | replacing one list leaves the other lists and the state of the link alone |
| Mtp3Spec.FindRoute | mtp3.c:183-202 | the first route with the point code |
| Mtp3Spec.TransmitKeepsShape | mtp3.c:1768-1838 | handing over messages changes neither states nor routes, so every message of a list is routed alike |
| Mtp3Conservation.CountSplit | mtp3.c:566-626 | moving keeps or takes every message, none twice |
| Mtp3Conservation.DrainWeight | mtp3.c:628-644 | setting the list to null after transmitting loses nothing when no link offers that list |
| Mtp3Conservation.TransmitSpares | mtp3.c:628-644 | transmitting does not append to a list that no link offers |
| Mtp3Conservation.CoBufNotOffered | mtp3.c:840-849 | while T1 expires no link offers the buffer being drained |
| Mtp3Conservation.CbBufNotOffered | mtp3.c:792-802 | while T3 expires no link offers the buffer being drained |
| Mtp3Conservation.RouteQNotOffered | mtp3.c:1040-1051 | the queue of a route whose T6 is stopped is not offered |
| Mtp3Runs.StepWeight | mtp3.c:434-907 | each of the twenty-six operations, the assignments of ss7_check among them, keeps every user message accounted for |
| Mtp3Runs.NothingLostOrDoubled | mtp3.c:434-1124 | over every run of traffic, changeover, changeback, rerouting, timers and the state assignments of ss7_check a user message is in the lists, freed or refused exactly as often as it was handed over |
| Mtp3Choice.OfferIsExact | mtp3.c:175-219 | link_available answers for exactly the links that take traffic with the route held or open, with the list of their changeover state |
| Mtp3Choice.ListsOffered | mtp3.c:204-218 | when exactly a link offers its transmit queue, its changeover buffer and its changeback buffer |
| Mtp3Choice.ChoiceIsExact | mtp3.c:221-243 | rl_to_link finds none exactly when no link qualifies; else the link of the SLS if it qualifies, else the first that does |
| Mtp3Choice.RefusedHaveNoLink | mtp3.c:1768-1838 | of messages handed over, exactly those are refused for which no link qualifies |
| Mtp3Choice.NewTrafficIsTaken | mtp3.c:1768-1838 | over every run, what a user hands over goes to the end of the list its link offers and nowhere else, and is refused exactly when no link qualifies |
| Mtp3Refusal.RefusedInStep | mtp3.c:434-1124 | whatever an operation refuses, no link qualified for it while it was handed over |
| Mtp3Refusal.RefusedOnlyWithoutLink | mtp3.c:434-1124 | over every run a message is refused only at a step at which no link qualified for it |
| Mtp3Local.QuietStep | mtp3.c:646-907 | each of the sixteen operations that hand nothing over changes one link exactly as said, lists, state, declaration and T4, frees exactly the messages said, and leaves every other link, route and point alone |
| Mtp3States.RelistedMoves | mtp3.c:646-907 | the state of a link after such an operation does not depend on its lists |
| Mtp3States.LinkStep | mtp3.c:434-907 | every one of the twenty-six operations moves each link as a small automaton says and no other link |
| Mtp3States.LinksFollow | mtp3.c:434-907 | so over every run a link is where the automaton puts it, whatever messages there were |
| Mtp3States.UnansweredSince | mtp3.c:1213-1228 | over every run a changeback declaration is unanswered exactly when a test or T4 sent one and neither an answer, an emergency changeover, T5 nor giving up has ended the wait since |
| Mtp3States.RouteStep | mtp3.c:1012-1124 | every operation changes the route for each point code, its state and its T6, as a second automaton says, and nothing else does; a point goes up and down only when that is set |
| Mtp3States.HeldSince | mtp3.c:1040-1124 | over every run T6 of a route runs exactly when a diversion with a free timer slot started it and no expiry, removal or forced rerouting has stopped it since |
| Mtp3Changeover.PartitionIsStable | mtp3.c:566-626 | what stays and what goes are each in the order of the list, together make it up, and exactly the selected messages go |
| Mtp3Changeover.TakenAreTrimmed | mtp3.c:597-600 | the two octets of the CRC are taken off each message that goes, and nothing else |
| Mtp3Changeover.TransmitAllArrives | mtp3.c:628-644 | each list is appended exactly the messages routed to it, in order |
| Mtp3Changeover.TransmitAllRefuses | mtp3.c:1768-1838 | exactly the messages without a link are refused and none is freed |
| Mtp3Changeover.GatherIsExact | mtp3.c:869-880 | gathered are the user messages newer than the peer's FSN as they lie, then the unsent, then the buffered ones, all without the CRC |
| Mtp3Changeover.SendingOrderIsKept | mtp3.c:869-880 | when no two unacknowledged user messages have the same address, the hand-over is in the order of sending exactly when at most one of them is unacknowledged: they are handed over newest first |
| Mtp3Changeover.ChangeoverHandsOverOnce | mtp3.c:869-887 | each of those is handed over once and arrives where its label sends it, for every list, the changeover buffer of the link itself included; of the user messages only acknowledged ones are freed |
| Mtp3Changeover.ChangebackIsHandedOverToo | mtp3.c:873-875 | a changeover during changeback hands over the messages held back as well, last |
| Mtp3Changeover.OwnTrafficComesBack | mtp3.c:869-887 | the changeover buffer of the link keeps its management messages and gets, in order, the messages routed to it; it is without user messages exactly when no message handed over meets the guards of link_available and rl_to_link for this link |
| Mtp3Changeover.OwnIsChosen | mtp3.c:175-243 | a message is sent to the changeover buffer of a link exactly when the link is changed over for a time, or initiated and up with its point, the route is neither held nor prohibited, and the SLS selects the link or no link before it is available |
| Mtp3Changeover.ChangeoverIsDoneOnce | mtp3.c:869-887 | a link already changed over, or changed over for a time, is left as it is |
| Mtp3Changeover.UpLinkKeepsItsTraffic | mtp3.c:869-887 | whatever else is handed over, each message a link still up is chosen for is back in its changeover buffer although the changeover is completed |
| Mtp3Changeover.T2HandsOverQueued | mtp3.c:1364-1379 | without an answer the unsent and buffered messages are handed over in order to every list their labels name, those without a link refused, and the unacknowledged ones freed |
| Mtp3Changeover.T2TrafficComesBack | mtp3.c:1364-1379 | from any changeover state, the changeover buffer of the link is without user messages afterwards exactly when no message handed over meets the guards for this link |
| Mtp3Changeover.CancelKeepsOrder | mtp3.c:663-677 | a cancelled changeover holds back the unsent and then the newly buffered messages in order and frees the unacknowledged ones |
| Mtp3Changeover.TimedBuffersQueue | mtp3.c:851-867 | a time-controlled changeover buffers the unsent messages in order and gives up what was taken over from MTP2 |
| Mtp3Changeover.ChangebackHoldsQueue | mtp3.c:804-821 | a changeback holds back the unsent messages in order and frees nothing |
| Mtp3Changeover.DrainArrives | mtp3.c:628-644 | the list that T1, T3 or T6 ends arrives in order where each label sends it, and is empty |
| Mtp3Invariants.MoveProper | mtp3.c:566-626 | moving between lists keeps sizes right and barred traffic out |
| Mtp3Invariants.TransmitProper | mtp3.c:175-243 | transmitting never chooses a list barred for the destination |
| Mtp3Invariants.ChangeoverProper | mtp3.c:869-887 | a changeover keeps sizes right and barred traffic out |
| Mtp3Rerouting.RerouteAt | mtp3.c:981-1075 | rerouting takes exactly the messages of the destination out of exactly the lists of the links to that point |
| Mtp3Rerouting.RecalledInOrder | mtp3.c:981-1075 | the route's queue keeps its messages and gets those recalled behind them, link by link and list by list, without the CRC |
| Mtp3Rerouting.AddSetRouteProper | mtp3.c:1078-1124 | after a route changes state nothing it bars is left in the lists |
| Mtp3Rerouting.RunsAreProper | mtp3.c:434-1124 | the invariant of the lists holds over every run, the state assignments of ss7_check included |
| Mtp3Rerouting.CrcIsCountedOnce | mtp3.c:597-600 | over every run the size of a user message is its MTP2 length plus 2 in tx_q, tx_buf, co_tx_q and co_tx_buf, and its MTP2 length in co_buf, cb_buf and route queues |
| Mtp3Rerouting.ProhibitedRouteHasNoTraffic | mtp3.c:981-1010 | over every run no list of a link holds user traffic for a destination whose route there is TFP |
| Mtp3Rerouting.HeldRouteHasNoTraffic | mtp3.c:1053-1076 | over every run, while T6 of a route runs, no such traffic is queued or buffered for a link of that point |
| Mtp3Rerouting.NewTrafficIsHeld | mtp3.c:183-189 | over every run, while T6 runs a new message joins the end of the route's queue and no other list, or no list of that signalling point changes |
| Mtp3Rerouting.RouteIsForShortCodes | mtp3.c:1078-1124 | over every run, a route set for a point code is found for that code exactly when the code has sixteen bits |
| Mtp3Preparation.OrderlyRunsAreIdle | mtp3.c:646-677 | over every run in which no link with an initiated changeover has a changeback given up or is marked changed over by ss7_check, only a link whose changeover is initiated has lists taken over from MTP2 |
| Mtp3Preparation.PrepareTakesOver | mtp3.c:889-907 | the lists of MTP2 are taken over unchanged and exactly what the replaced lists held is lost |
| Mtp3Preparation.PreparingLosesNothing | mtp3.c:889-907 | over every such run preparing a changeover loses nothing |
| Mtp3Preparation.PrepareLosesExactly | mtp3.c:889-907 | in every state, preparing loses nothing exactly when the changeover is initiated already or the lists taken over before hold no user message |
| Mtp3Preparation.AbandonThenPrepareLoses | mtp3.c:1623-1626 | giving up a changeback of a link whose changeover is initiated makes the next preparation lose everything taken over |
| Mtp3Scenarios.AbandonRunLoses | mtp3.c:1392-1405 | from the empty state, for every link that is up and every message it gets: a changeback declared and completed by the peer's declaration, submit, failure, T4 without a link for its declaration, prepare loses the message |
| Mtp3Scenarios.ThereAndBackDeclares | mtp3.c:1213-1228 | a timed changeover and a changeback that the peer's declaration completes leave a link as it was, except that its own declaration still waits for an answer and T4 runs |
| Mtp3Scenarios.ComesBackRun | mtp3.c:869-887 | from the empty state, for every link that is up, every message it gets and every FSN: submit, prepare, changeover ordered by the peer ends with the message in the changeover buffer of the link, changed over |
| Mtp3Scenarios.SendingOrderOverRuns | mtp3.c:878-880 | over every run in which addresses of messages are not reused, a changeover hands over in the order of sending exactly when at most one user message is unacknowledged |
| Mtp3Network.MoveBuffer | mtp3.c:566-626 | the splicing loop keeps and takes what the specification says, in order |
| Mtp3Network.UpdateTxbuf | mtp3.c:571-573 | the list is cut before the newest unit with the FSN |
| Mtp3Network.Ss7.LinkAvailable | mtp3.c:175-219 | which list a link offers, or none |
| Mtp3Network.Ss7.RlToLink | mtp3.c:221-243 | the link the SLS selects, else the first available |
| Mtp3Network.Ss7.Transmit | mtp3.c:1768-1838 | a user message is queued with the CRC counted, buffered, or freed |
| Mtp3Network.Ss7.TransmitBuffer | mtp3.c:628-644 | the messages of a list are handed over and the list is emptied |
| Mtp3Network.Ss7.FreeCo | mtp3.c:646-661 | both lists taken over are freed |
| Mtp3Network.Ss7.CancelChangeover | mtp3.c:663-677 | unsent and buffered messages go to the changeback buffer |
| Mtp3Network.Ss7.CancelChangeback | mtp3.c:823-838 | the changeback buffer goes to the changeover buffer |
| Mtp3Network.Ss7.PrepareChangeover | mtp3.c:889-907 | the lists of MTP2 are taken over once |
| Mtp3Network.Ss7.ChangeoverTo | mtp3.c:869-887 | state after a changeover with the peer's FSN |
| Mtp3Network.Ss7.TimedChangeover | mtp3.c:851-867 | unsent messages are buffered, the rest freed |
| Mtp3Network.Ss7.T1Expired | mtp3.c:840-849 | the changeover buffer is drained |
| Mtp3Network.Ss7.T2Expired | mtp3.c:1364-1379 | the changeover is completed without an answer |
| Mtp3Network.Ss7.T3Expired | mtp3.c:792-802 | the changeback buffer is drained |
| Mtp3Network.Ss7.StartChangeback | mtp3.c:1713-1727 | a tested link declares its changeback, cancels a changeover under way and is marked |
| Mtp3Network.Ss7.CbdAnswered | mtp3.c:1213-1228 | an answer nobody waits for changes nothing; else the declaration is forgotten, T4 stopped and the changeback done |
| Mtp3Network.Ss7.AbandonChangeback | mtp3.c:1622-1626 | only a declared changeback is given up |
| Mtp3Network.Ss7.T4Expired | mtp3.c:1392-1405 | the declaration is repeated, or a changeover order or the changeback is given up for want of a link |
| Mtp3Network.Ss7.T5Expired | mtp3.c:1381-1390 | the declaration is forgotten and the changeback completed |
| Mtp3Network.Ss7.Changeback | mtp3.c:804-821 | a changeover is cancelled or a changeback started |
| Mtp3Network.Ss7.Reroute | mtp3.c:987-995 | the loop over the links of the signalling point |
| Mtp3Network.Ss7.ForcedReroute | mtp3.c:981-1010 | messages for the route are recalled or freed, T6 stopped and the queue drained |
| Mtp3Network.Ss7.ControlledReroute | mtp3.c:1053-1076 | messages for the route are recalled and held for T6 |
| Mtp3Network.Ss7.AddSetRoute | mtp3.c:1078-1124 | the point code is cut to sixteen bits, a route is found or added and rerouting started as its state asks |
| Mtp3Network.Ss7.DestroyRoute | mtp3.c:1012-1038 | the route is unlinked and its queue freed |
| Mtp3Network.Ss7.T6Expired | mtp3.c:1040-1051 | the queue is drained and an allowed route removed |
| RoutingLabel.WrittenIsRead | mtp3.c:83-100 | reading a written label gives the fields cut to 14, 14 and 4 or 24, 24 and 8 bits, so exactly labels that fit survive |
| RoutingLabel.ReadIsWritten | mtp3.c:126-152 | every label octet string is the image of one label |
| RoutingLabel.FilterIsExact | mtp3.c:586-592 | the point code filter of mtp3_move_buffer finds exactly the messages sent with that code |
| RoutingLabel.CicIsRead | isup.c:3216-3223 | a circuit code survives exactly when it has 12 bits (ITU) or 14 bits (ANSI) |
| Scheduler.DeadlineIsExact | ss7_sched.c:39-61 | for every delay, negative ones too, a deadline is the clock plus the delay; its microseconds are at most a million, and negative exactly when the clock has fewer than the remainder of a negative delay takes away |
| Scheduler.DueIsLateExactly | ss7_sched.c:78-96 | for every deadline a delay can make, the test is never early, and late exactly within the second before the one the slot is stored under |
| Scheduler.DueRespectsTime | ss7_sched.c:78-96 | the lexicographic test of the pass is the comparison of real times |
| Scheduler.LaterRespectsTime | ss7_sched.c:63-76 | so is the test that looks for the earliest slot, except that of two slots of the same time it takes the one in the later second for later |
| Scheduler.FirstFree | ss7_sched.c:43-49 | the first free slot |
| Scheduler.PerformKeepsPending | ss7_sched.c:78-96 | what a callback arms is not due in the same pass |
| Scheduler.DeleteIsExact | ss7_sched.c:110-120 | deleting frees the slot named and no other; a negative number names none |
| Scheduler.Table.ScheduleEvent | ss7_sched.c:39-61 | the slot loop arms the first free slot or reports a full table, for every delay |
| Scheduler.Table.ScheduleNext | ss7_sched.c:63-76 | the earliest armed slot in real time, or none |
| Scheduler.Table.ScheduleDel | ss7_sched.c:110-120 | exactly that slot is freed |
| Scheduler.Table.ScheduleRun | ss7_sched.c:78-96 | with callbacks that arm and delete slots a pass fires only slots due at its start, each at most once, misses only what a callback deleted, and leaves nothing due |
| IsupCalls.RunsAreValid | isup.c:3499-4289 | calls and timer table agree and guard timers are guarded over every run of requests, messages and expiries in which other layers arm and cancel slots of the same table |
| IsupCalls.TimersAndTableAgree | isup.c:5439-5502 | a call's timer field holds a slot exactly when that slot is armed with that call and timer; no slot is shared and none refers to a freed call |
| IsupCalls.GuardTimersAreGuarded | isup.c:5304-5437 | T1, T5, T12 to T21 run only while the request they guard is outstanding |
| IsupCalls.OutstandingSinceRequest | isup.c:4981-5025 | an outstanding BLO, UBL, CGB or CGU was requested and has been outstanding ever since |
| IsupCalls.AcceptedAnswerEnds | isup.c:3981-4039 | an acknowledgement is accepted when its event has room and, for a group, it matches the request; accepting it clears the request and disarms its timers |
| IsupCalls.NothingResentAfterAnswer | isup.c:5304-5437 | a repeating timer that is armed has had no accepted acknowledgement since its request; BLA and UBA are accepted without any comparison |
| IsupCalls.ClearingFlagsIsSafe | isup.c:5534-5555 | clearing flags keeps guard timers guarded exactly when the set has none of REL, RSC, BLO, UBL |
| IsupCalls.RequestIsSafe | isup.c:4777-5025 | every request leaves its call with guarded timers, whatever mtp3 answers |
| IsupCalls.MessageIsSafe | isup.c:3619-4289 | so does every received message; what each does is in IsupReactions |
| IsupCalls.ExpiryIsSafe | isup.c:5304-5437 | so does every expiry, also when the callback frees its own call |
| IsupCalls.RaisedByRequest | isup.c:4488-4561 | only the request itself, accepted by mtp3, makes it outstanding |
| IsupCalls.ReleaseIsOneChange | isup.c:4777-4815 | a release is one change of flags and timers, or the call is freed |
| IsupEffects.StartIsExact | isup.c:5471-5502 | a timer that is started runs, due exactly its configured time from now, unless it is switched off or the table is full once its own slot is free; no other timer and no other slot changes |
| IsupEffects.StopIsExact | isup.c:5439-5469 | stopping frees the slots of these timers and no other |
| IsupEffects.AllStart | isup.c:5471-5502 | timers started in a row all run when there is a free slot for each that is idle |
| IsupEffects.ChangeIsExact | isup.c:5439-5502 | what stopping, starting and changing flags leaves of a call and of the table |
| IsupReactions.CompleteIsTaken | isup.c:3790-3840 | an ACM or CON for an outgoing call stops T7 and is noted; else it is unexpected |
| IsupReactions.AnswerIsTaken | isup.c:3841-3865 | an ANM for an outgoing call is noted and stops nothing |
| IsupReactions.DigitsAreTaken | isup.c:3622-3646 | a SAM for an incoming call starts T35 anew |
| IsupReactions.ReleaseIsTaken | isup.c:3769-3789 | a REL clears the connected and pending flags, stops T2, T6, T7, T10 and T35, and no others |
| IsupReactions.ReleaseCompleteIsTaken | isup.c:3866-3895 | an RLC for a call with a release or reset outstanding ends both and leaves no slot armed for T1, T2, T5, T6, T16 and T17; after a reset the connected and pending flags go too |
| IsupReactions.ResetIsTaken | isup.c:3749-3768 | an RSC stops every timer and clears every flag, unless a reset of our own is outstanding |
| IsupReactions.ContinuityIsTaken | isup.c:3896-3925 | a COT ends the check and T8; a failed one starts T27 and forgets the call |
| IsupReactions.CheckIsTaken | isup.c:3926-3941 | a CCR stops T27 and asks for the check |
| IsupReactions.BlockingIsAcknowledged | isup.c:3981-4039 | a BLA or UBA ends its request and both its timers |
| IsupReactions.GroupIsAcknowledged | isup.c:4161-4227 | a CGBA or CGUA that matches ends its request and both its timers; one that does not changes nothing |
| IsupReactions.GroupResetIsAcknowledged | isup.c:3713-3748 | a GRA that matches stops T22 and T23 and ends one of the group resets outstanding |
| IsupReactions.SuspendIsTaken | isup.c:4228-4257 | a SUS starts T6 or T2, by its indicator, unless the call is being hung up |
| IsupReactions.ResumeIsTaken | isup.c:4258-4282 | a RES stops the timer of its indicator |
| IsupReactions.ProgressIsReported | isup.c:4078-4102 | a CPG for an outgoing call changes nothing |
| IsupReactions.InformationIsGiven | isup.c:3670-3684 | an INR for an outgoing call is answered, or the call is freed when mtp3 does not take the answer |
| IsupReactions.ReportsAreTaken | isup.c:3942-3980 | messages only passed up change nothing with room for the event and free the call without; so does one that cannot be parsed |
| IsupReactions.OthersEndClearCalls | isup.c:4283-4289 | other messages free a call exactly when it has no flag and no timer |
| IsupReactions.UnexpectedIsExact | isup.c:3478-3497 | an unexpected message leaves connected calls and guarded hang-ups alone, resets an idle circuit, and frees a call without a circuit |
| IsupReactions.FlagsAreSplit | libss7.h:83-107 | connected, pending and maintenance flags are three sets that make up all flags |
| IsupRequests.InitialAddressIsSent | isup.c:4620-4645 | an IAM that mtp3 takes starts T7 and is noted |
| IsupRequests.PhaseIsSent | isup.c:4647-4775 | ACM, ANM, CON and CPG stop T35 and T10 and are noted |
| IsupRequests.ReleaseIsSent | isup.c:4777-4815 | a release starts T1 and T5, ends the phase timers, and leaves only maintenance flags and its own |
| IsupRequests.ResetIsSent | isup.c:4958-4979 | a reset stops every timer, starts T17 and keeps the flags |
| IsupRequests.BlockingIsSent | isup.c:4981-5025 | a BLO or UBL starts both its timers |
| IsupRequests.GroupRequestIsSent | isup.c:4488-4561 | a CGB or CGU starts both its timers, unless the range is too long |
| IsupRequests.GroupResetIsSent | isup.c:4419-4457 | a group reset stops every timer and starts T22 and T23 |
| IsupRequests.InformationIsAsked | isup.c:4836-4859 | an INR starts T33 |
| IsupRequests.FacilityIsSent | isup.c:4708-4730 | a FAR is sent only with a call reference |
| IsupRequests.PlainIsSent | isup.c:4817-4932 | other messages change nothing, unless mtp3 refuses them and the call is freed |
| IsupRequests.FreeingIsExact | isup.c:3051-3076 | freeing a call, always or when it is clear, removes its slots and no others |
| IsupRequests.DigitsAreAwaited | isup.c:5557-5560 | waiting for digits starts T10 |
| IsupRequests.FlagsAreCleared | isup.c:5534-5555 | clearing flags by hand, none of REL, RSC, BLO and UBL among them, stops the timers of IAM, CGB and CGU only |
| IsupExpiries.RepeatingExpires | isup.c:5321-5418 | T1, T12, T14, T16, T18 and T22 start themselves anew and change nothing else |
| IsupExpiries.LongTimerExpires | isup.c:5369-5414 | T13, T15, T19 and T23 also stop the short timer of their pair |
| IsupExpiries.GroupUnblockingExpires | isup.c:5398-5422 | T20 and T21 also start T22 and T23 |
| IsupExpiries.GivenUpExpires | isup.c:5340-5348 | T5 and T17 stop every timer, start T17 and raise the reset |
| IsupExpiries.PhaseExpires | isup.c:5337-5433 | T8, T33 and T35 release the call, T27 resets its circuit; without mtp3 the call is freed |
| IsupExpiries.DigitTimerExpires | isup.c:5349-5364 | T10 reports a digit timeout, or frees the call when the event has no room |
| IsupExpiries.HangupExpires | isup.c:5330-5336 | T2, T6 and T7 only lose their slot; what follows is the application's |
| IsupExpiries.AddressIsTaken | isup.c:4291-4392 | what an IAM does: a second one, one that lacks a calling number, and one that is complete, incomplete or checked |
| IsupExpiries.InformationIsTaken | isup.c:3647-3669 | what an INF does: unsolicited, without a number, and one that resumes the IAM |
| IsupExpiries.GuardIsRearmed | isup.c:5321-5422 | a guard timer that expires with a slot free runs again, due its configured time from now; for T5 it is T17 |
| IsupExpiries.GuardOutlivesExpiry | isup.c:5304-5437 | so over every run, for as long as the expiry finds its timers configured |
| IsupHangup.HangupSinceSent | isup.c:4777-4979 | over every run an outstanding release or reset was sent by an operation of the run and has been outstanding ever since |
| IsupHangup.NothingResentAfterComplete | isup.c:3866-3895 | over every run, when T1, T5, T16 or T17 runs, no release complete has been accepted since the release or reset was sent |
| IsupHangup.OnlyUnansweredIsResent | isup.c:5304-5437 | over every run a guard timer sends the request it guards again, and only if that was sent and no answer has been taken since; T5 sends a reset instead, T20 and T21 a group reset as well |
| IsupChase.StepChases | isup.c:3499-5437 | after any operation with room in the table, a request that is outstanding and not overtaken by a reset has its long timer running |
| IsupChase.NeverAbandoned | isup.c:5304-5437 | over every run with room and timers, and without a reset of the circuit, an outstanding REL, BLO, UBL, CGB or CGU, or RSC, is armed to be repeated |
| IsupChase.ResetAnswered | isup.c:3866-3895 | after a reset is answered, a blocking or unblocking still outstanding is chased exactly if its long timer ran all along |
| IsupChase.ResetAbandons | isup.c:4958-4979 | for every state with an unanswered blocking or unblocking: a reset and its release complete leave it outstanding with no timer of the call running |
| IsupGroupReset.ResetTimersAreGuarded | isup.c:5398-5422 | over every run without an expiry of T20 or T21 and without clearing the flag by hand, T22 and T23 run only while a group reset is outstanding |
| IsupGroupReset.UnblockingStartsReset | isup.c:5398-5422 | an expiry of T20 or T21 leaves T22 and T23 running with no group reset outstanding exactly when none was |
| IsupGroupReset.UnblockedStaysReset | isup.c:4194-4227 | the acknowledgement of the unblocking does not stop T22 |
| IsupSpec.StartTimer | isup.c:5471-5502 | starting keeps agreement and touches no other call and no other timer; that and when it runs is `IsupEffects.StartIsExact` |
| IsupSpec.FreeCall | isup.c:3051-3076 | freeing a call frees its slots and keeps the others |
| IsupSpec.ApplyKeeps | isup.c:5439-5502 | a change that is safe for its call keeps everything valid |
| IsupTimers.Isup.StopTimer | isup.c:5439-5454 | the slot is freed and the field reset, or nothing happens |
| IsupTimers.Isup.StopAllTimers | isup.c:5456-5469 | the loop stops exactly the running timers |
| IsupTimers.Isup.StartTimer | isup.c:5471-5502 | the start of the specification: nothing when the timer is switched off, else a running one is replaced and the first free slot is armed |
| IsupTimers.Isup.FreeCall | isup.c:3051-3076 | all timers are stopped before the call is unlinked |
| IsupTimers.Isup.Rel | isup.c:4777-4815 | the imperative release is the change of the specification |
| IsupNumber.PackedIsRead | isup.c:389-440 | unpacking packed digits gives their canonical form, so exactly canonical digits survive |
| IsupNumber.ReadIsPacked | isup.c:389-440 | packing unpacked digits gives the octets back exactly when the unused half is zero |
| IsupNumber.DigitIsRead | isup.c:290-387 | a character comes back canonical: lower case raised, E and F as star and hash, others as zero |
| IsupNumber.PutNumber | isup.c:419-440 | the ORing loop fills zeroed octets with the packed digits and touches nothing else |
| IsupNumber.GetNumber | isup.c:389-403 | the loop writes the digits, a final NUL, and nothing else |
| IsupFraming.ParsedAsAssembled | isup.c:3562-3617 | when receivers consume their content and lengths and pointers fit an octet, the three loops hand over exactly the parameters assembled, in order |
| IsupFraming.OptionalLoop | isup.c:3598-3617 | the optional loop ends on every octet string, len falling with each parameter, and hands over what the specification says |
| IsupFraming.LeftoversAreRead | isup.c:3598-3617 | a receiver is handed the whole content, but what it does not consume of it is read as further parameters |
| IsupFraming.VariableLoop | isup.c:3577-3596 | the loop over the pointers |
| IsupFraming.FixedLoop | isup.c:3562-3575 | the loop over the fixed parameters |
| IsupFraming.ReceiveParameters | isup.c:3562-3617 | the three loops in sequence |
| IsupFraming.WriteVariable | isup.c:3282-3295 | each pointer is the distance to its body |
| IsupFraming.WriteOptional | isup.c:3297-3315 | parameters that transmit something are appended, the others leave no trace in the message |
| IsupFraming.SendParameters | isup.c:3257-3327 | the buffer holds the assembled layout |
| IsupIam.IamIsHeard | isup.c:3180-3330 | for every call with in-range fields, parsing the assembled ITU IAM into a fresh call gives back called, calling, redirecting and original called number with indicators, category, medium, redirection data and closed user group |
| IsupIam.CallSurvives | isup.c:67-70 | everything an IAM carries survives exactly when each part does |
| IsupIam.CallingSurvives | isup.c:1204-1240 | when a calling number with its indicators survives |
| IsupIam.NumberSurvives | isup.c:2446-2474 | when a redirecting or original called number survives |
| IsupIam.CugSurvives | isup.c:2634-2659 | when closed user group data survives |
| IsupIam.CalledIsRead | isup.c:741-771 | the called number and its nature of address come back |
| IsupIam.RedirectionIsRead | isup.c:1809-1828 | the redirection information comes back |
| IsupMessages.EveryMessageFits | isup.c:3180-3327 | every message of the table, on both switch types, with headers and CRC fits the 512 octets of a message |
| IsupMessages.LengthsAndPointersFit | isup.c:3277-3320 | in every message each length octet, each pointer to a variable parameter and the pointer to the optional part holds the full number |
| IsupMessages.EveryMessageIsParsed | isup.c:3562-3617 | every message of the table, on both switch types, is taken apart into the parameters that transmitted something, in order; only a group query response is dropped |
| IsupMessages.OutBound | isup.c:442-2659 | the most octets each transmit function writes |
| IsupMessages.SilentExactly | isup.c:3297-3315 | for every parameter, on both switch types, exactly when there is nothing to say in it, so that an optional part leaves it out |
| IsupMessages.RangeStandsAlone | isup.c:1160-1184 | queries, query responses and resets carry the range alone, the other group messages one bit a circuit behind it |
| IsupMessages.DigitsTake | isup.c:1945-1975 | generic digits take an octet a character as a business group identity and half an octet otherwise; line information is its number below 99 |
| IsupMessages.AnsiExceptions | isup.c:3244-3256 | ANSI changes the rows of exactly four messages: IAM, RLC, GRS and GRA |
| IsupMessages.OptionalCodesHaveAPart | isup.c:67-156 | no message lists optional parameters without having an optional part |
| IsupMessages.KnownIsTransmitted | isup.c:2661-2737 | the codes for which a transmit function is modelled |
| IsupMessages.PartsAreRow | isup.c:67-156 | how the counts of each row, with the ANSI exceptions, cut its parameter list |
| IsupMessages.OptionalIsConsumed | isup.c:3108-3121 | each optional parameter is transmitted with the length its receiver consumes |
| IsupMessages.IamIsInTable | isup.c:67-70 | the ITU initial address message of the table is the one whose contents are read back |
| IsupParameters.ConnectedIsRead | isup.c:1259-1290 | a connected number is sent exactly when asked for, and comes back with its indicators or declared not available |
| IsupParameters.ConnectedSurvives | isup.c:1259-1290 | exactly when a connected number comes back as it was |
| IsupParameters.ChargeIsRead | isup.c:1566-1606 | charge number and nature of address come back |
| IsupParameters.SubsequentIsRead | isup.c:2597-2614 | the digits of a subsequent address message come back canonical |
| IsupParameters.AddressSurvives | isup.c:1890-1921 | exactly when a generic address comes back as it was |
| IsupParameters.NameSurvives | isup.c:1830-1869 | exactly when a generic name comes back as it was |
| IsupParameters.CallRefSurvives | isup.c:2376-2409 | a call reference comes back exactly when its identity has 24 bits and its point code 24 (ANSI) or 14 (ITU) |
| IsupParameters.CauseSurvives | isup.c:890-904 | a cause comes back exactly when code, location and value have 2, 4 and 7 bits |
| IsupGroup.StatusIsRead | isup.c:1136-1184 | a received status array says for each circuit of the range whether it was set, and keeps the rest |
| IsupGroup.BitmapIsFaithful | isup.c:1160-1184 | two arrays make the same bitmap exactly when they set the same circuits |
| IsupGroup.RequestIsSaved | isup.c:4488-4523 | a group blocking that was sent is saved beside the current parameters and pending, with both timers running |
| IsupGroup.AnswerIsSent | isup.c:4563-4589 | an answer carries its range, the type heard and a bit for each circuit set, and does not touch the request of its own call |
| IsupGroup.PendingUntilAnswered | isup.c:4161-4193 | over every run of messages, answers and expiries a request stays pending, with both timers running, exactly until a message with its range and type that reports only circuits asked for arrives |
| IsupGroup.NegativeRangeIsSent | isup.c:1160-1184 | what an end circuit below the first sends: one octet or two, nothing, or the end of the message, by the distance |
| IsupGroup.ResendsTheRequest | isup.c:5383-5397 | whatever was received or answered since, T18 and T19 send the first CGB again |
| IsupGroup.EchoIsAccepted | isup.c:4161-4193 | for every range that is not negative, the echo of a peer clears the request and stops T18 and T19 exactly when the type fits two bits |
| IsupGroup.AcceptedExactly | isup.c:3466-3476 | an answer is accepted exactly when its range and type are those of the request and it reports only circuits asked for |
| IsupGroupCall.CheckStatus | isup.c:3466-3476 | the loop finds whether more was answered than asked |
| IsupGroupCall.WriteBitmap | isup.c:1160-1184 | the ORing loop writes range and bitmap |
| IsupGroupCall.WriteRange | isup.c:1160-1184 | what range_and_status_transmit writes for every range, negative ones included, or that its result ends the message |
| IsupGroupCall.GroupCall.Cgb | isup.c:4488-4523 | for every end circuit, also one below the first, the request is stored and encoded, or refused beyond 32 circuits; when mtp3 refuses it or it cannot be encoded the call is freed and its timers are stopped |
| IsupGroupCall.GroupCall.Cgba | isup.c:4563-4589 | for every end circuit the answer is stored and encoded; when mtp3 refuses it or it cannot be encoded the call is freed |
| IsupGroupCall.GroupCall.Receive | isup.c:1136-1158 | the received parameters overwrite range, type and statuses, for every range octet; the padding octet is circuit 255 |
| IsupGroupCall.GroupCall.GotCgba | isup.c:4161-4193 | which answers are unexpected, which do not match, which end the request, and that a full event ring frees the call |
| IsupGroupCall.GroupCall.Resend | isup.c:5383-5397 | the stored request is restored and encoded again |

## Left out

- Reading and writing of file descriptors, DAHDI, polling, logging, dumps, command line and test programs.
- Application callbacks (`ss7_hangup`, `ss7_call_null`, `ss7_notinservice`): their documented outcomes are choices of the environment.
- `mtp2_alarm` and `mtp2_noalarm`: they overwrite the state without touching timers; the alignment results are for runs without them.
- MTP2 T7: its slot starts at 0 instead of -1, so nothing is claimed about when it runs.
- ErrorCorrection.Reachable: user data flows one way, no reset happens during a run, and received units are already told apart by kind; length indicator checks are not modelled.
- Mtp2.Mtp2.MtpReceive: the event ring and the timer table are reduced to whether they have room.
- Mtp3Network.Ss7.Transmit: messages are values with an address, so sharing of one message by two lists is excluded by counting, not by pointers; `retransmit_pos` is not moved when forced rerouting frees its unit.
- Mtp3Runs.NothingLostOrDoubled: management messages, whose fallback loop can queue one message on several links (mtp3.c:1601-1605), are appended to a link and not counted.
- Inhibition of links, the contents of link tests, and the MTP3 timers other than T1 to T6. Expiries of T1, T2, T3 and T5 may come at any time, whether the timer runs or not; T4 only while it runs.
- RoutingLabel.WrittenIsRead: labels and circuit codes are read from octet sequences, not from a message buffer.
- Scheduler.Table.ScheduleRun: callbacks are sequences of deleting slots and arming them with positive delays, given beforehand.
- IsupCalls.RunsAreValid: ISUP operations above the timer primitives are decisions on values (flags to set, timers to stop and start), except the release; the text of messages is in the codec files, which messages expiries send is in `IsupHangup.Resent`, and the events handed to the application are reduced to whether they have room.
- IsupChase.NeverAbandoned: room is four free slots at every step, and the timer is configured whenever a callback looks; without either a request can be left without a timer.
- IsupCalls.GuardTimersAreGuarded: T22 and T23 are in IsupGroupReset, because the T20 and T21 branches run on into theirs; nothing is claimed about T33, which a release leaves running.
- IsupCalls.MessageIsSafe: after a failed INF the code still uses the call it freed (isup.c:3681-3691); the model ends there with the call gone.
- IsupFraming.ParsedAsAssembled: parameters whose receivers consume less than their length, and variable parameters that transmit nothing, are parsed as the code does but no round trip is claimed.
- IsupFraming.SendParameters: transmit functions are represented by the octets they produce.
- IsupIam.IamIsHeard: the ITU message only; calls are values and the straight-line parameter functions are functions on them; short received parameters, where the code reads past the content, are excluded.
- CGU and CGUA: they repeat the code of CGB and CGBA with their own fields.
- IsupGroupCall.GroupCall.GotCgba: what follows an unexpected answer is in `IsupCalls.Unexpected`.
- IsupMessages.EveryMessageFits: strings have at most 63 characters, a name 15, as their buffers hold with the final NUL; a group has at most 32 circuits and its range is not negative.
- IsupMessages.EveryMessageIsParsed: it is about the pieces handed to the receivers. What circuit state, local service provider, jurisdiction, generic digits and line information leave at the receiver is not modelled.
- Memory allocation failure.
