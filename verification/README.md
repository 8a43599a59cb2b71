# A verified model of the atc_hdlc link

atc_hdlc is a C library for an HDLC data link in Asynchronous Balanced Mode: octets in and out at the bottom,
and above them a Go-Back-N protocol machine with modulo-8 sequence numbers, a window of one to seven frames, two
timers, REJ, RNR and FRMR. This project models the library and proves what it is for.

`dafny verify dfyconfig.toml` verifies the whole of it.

## How it is laid out

| file | what it holds |
|---|---|
| `Crc.dfy` | the table-driven CRC, the bit-serial register it stands for, and what errors it detects |
| `Frame.dfy` | control octets, octet stuffing, and the transmit side of the context (`FrameWriter`) |
| `Receiver.dfy` | the octet-at-a-time receiver, a declarative reading of an octet stream, and the receive side of the context (`FrameReader`) |
| `Link.dfy` | the protocol machine as functions on the value of the context |
| `Station.dfy` | the context as a class; each method is proved to be the function of `Link` that it implements |
| `Runs.dfy`, `Epochs.dfy`, `Replay.dfy`, `Acknowledgement.dfy`, `Retries.dfy`, `Exceptions.dfy`, `Timers.dfy`, `Answers.dfy`, `Modes.dfy`, `Rejection.dfy`, `FlowControl.dfy` | one station, any sequence of calls, any frames received |
| `Emission.dfy`, `TwoStations.dfy`, `Recovery.dfy` | two stations over channels that keep order but lose frames |
| `Handshake.dfy` | setup, reset and release of two stations, with losses, and what the passive one lacks |
| `BusyPeer.dfy`, `Datagrams.dfy` | from set_local_busy at one station to transmit_i at the other; UI and TEST |
| `Line.dfy` | two stations and the octets between them, cut into calls anyhow, refine the system of `TwoStations` |
| `Modular.dfy` | remainders by an unknown divisor, for the retransmit ring |

The C context is one structure. Here it is three objects, because the transmitter (`tx_crc` and what was sent) and the
receiver (`rx_state`, `rx_index`, `rx_crc` and the buffer) have no field in common with the protocol machine. What
`on_send`, `on_event` and `on_data` were given is kept as a ghost history. Of every frame sent, the history also keeps
the unbounded numbers behind its modulo-8 ones; no decision depends on them.

A `Call` is one call of the library by the user, a timer or the octet source that can touch the protocol machine;
`Receive(frames)` is one call of `data_in` whose octets complete these frames. The calls that stream a UI frame in
pieces touch the transmitter only, and are methods of `FrameWriter`. A run (`Runs.IsRun`) is any sequence of calls from
initialisation on. A history of two stations (`TwoStations.IsHistory`) is any interleaving of their calls, arrivals and
losses from a fresh connection on, such as the handshake leads to (`Handshake.HandshakeOpens`); a history of octets
(`Line.IsLineHistory`) the same with any number of octets in each call of `data_in`.

## What was found

Seven properties one would expect do not hold of the code as it is; each has its exact condition.

- The receiver hands the length of an info field on in 16 bits, while every limit is configured in 32. A payload of
  65536 octets is accepted by transmit_i and, if the peer's receive buffer takes it, delivered empty. A frame that fits
  arrives whole if and only if its info field is shorter than 65536 octets. What is delivered is a prefix of what was
  accepted if and only if, in each direction, max_info_size is below 65536 or the peer's receive buffer below 65540
  octets (`Receiver.FrameArrivesWhole`, `TwoStations.LongPayloadIsLost`, `TwoStations.PrefixesExactly`).
- A link reset does not cancel a due replay. A REJ and then a SABM in one call of `data_in` make the library send
  frames for payloads that nobody has handed over since the reset, and perhaps from outside the slot memory. Of any
  call, whatever frames it completes, the replay sends nothing stale if and only if the call resets nothing with a
  replay due, or that replay starts at N(R) = 0 (`Replay.CallSendsNothingStaleExactly`); and it begins within the slot
  memory if and only if one of these holds, or the window has room for the 8 - N(R) frames from N(R) to the end of the
  number circle, or slot_count divides their number (`Replay.CallIsAllowedExactly`). `Replay.ExampleLeavesMemory` is a
  run with a call that does not. One frame per call, or no reset in a call, is always safe
  (`Replay.OneFrameReplaysOutstanding`, `Replay.FramesKeepReplayOk`).
- A U-frame that CONNECTED does not recognise draws an FRMR and stops T2, so a pending acknowledgement may be dropped:
  exactly then (`Acknowledgement.DispatchDropsDebt`, `Rejection.UnrecognisedIsRejected`);
  `Acknowledgement.ExampleDropsDebt` is a run in which a UA does it.
- The station that was called never learns its peer's address: only link_setup stores one. Its T2 acknowledgements,
  while it is not busy, its REJs and its I-frames reach the peer if and only if the address it holds, 0 after a
  handshake, is one that the peer takes (`Handshake.AcknowledgementIsHeard`, `Handshake.RejIsHeard`,
  `Handshake.IFrameIsHeard`, `Handshake.PassiveIsHeard`); so does its DISC (`Handshake.DiscIsHeard`), without which
  nothing is released. Safety does not depend on it, and what its acknowledgements do
  not say the answers to T1 enquiries do (`Recovery.UnpairedReceiverIsSilent`, `Recovery.SecondEnquiryCompletes`).
- The RR that ends a busy condition is sent once. If it is lost, or bears an address that the peer does not take,
  transmit_i at the peer stays closed though no station is busy; with nothing outstanding no timer runs that would open
  it (`BusyPeer.ClearanceIsSentOnce`, `BusyPeer.SettledStays`). It is open again exactly when some RR or REJ comes
  (`FlowControl.PeerIsBusyExactly`, `BusyPeer.ClearanceOpensPeer`); a REJ ends the condition without PEER_READY
  (`FlowControl.FlowIsReportedExactly`).
- A station that is busy itself sends its T1 enquiry under its own address; its peer takes it for a response and does
  not answer (`Recovery.EnquiryIsCommandUnlessBusy`, `Recovery.BusyEnquiryIsNotAnswered`).
- A retry limit of 255 is no limit (`Retries.UnlimitedRetriesNeverEnd`).

Where the code and its documentation disagree the model follows the code. The library's README.md:16 promises SABM
contention resolution by address; src/hdlc_dispatch.c:108-111 answers a SABM in CONNECTING with UA and stays there.
inc/atc_hdlc/hdlc_types.h:29 says that DISCONNECTED processes TEST; src/hdlc_dispatch.c:62-96 ignores it there.

## Model

| member | source | states |
|---|---|---|
| Crc.TableFormIsBitSerial | src/hdlc_crc.c:12-35 | for every message and start value the table-driven CRC is the bit-serial register with the reflected polynomial 0x8408 |
| Crc.SoftCompute | src/hdlc_crc.c:37-41 | the loop returns the fold of the driver over the octets |
| Crc.ComputeConcat | src/hdlc_crc.c:37-41 | the CRC of a message may be computed in any two pieces |
| Crc.FcsResidueIsZero | src/hdlc_frame.h:108-112 | running the CRC on through the two FCS octets, low first, gives 0 exactly when the FCS matches |
| Crc.BurstsAreDetected | src/hdlc_in.c:36-43 | of two different bodies of any one length that differ only within 16 consecutive bits, not both pass the FCS check |
| Crc.OddErrorsAreDetected | src/hdlc_in.c:36-43 | nor of two that differ in an odd number of bits |
| Crc.FramesStartAllSet | src/hdlc_crc.h:15 | the register begins a frame with all sixteen stages set |
| Crc.ComputeIsInjective | src/hdlc_crc.c:12-41 | no message leads two different registers to the same one |
| Crc.LeadingZeroIsSeen | src/hdlc_crc.h:15 | so a zero octet in front of any message changes its FCS |
| Crc.LeadingZeroIsDetected | src/hdlc_in.c:36-43 | and of a body that passes the FCS check the same with a zero octet in front does not |
| Frame.ControlRoundTrip | src/hdlc_frame.h:26-33 | the macros that take a control octet apart undo those that build it |
| Frame.OctetRoundTrip | src/hdlc_frame.h:26-33 | every octet is the encoding of what it says |
| Frame.ControlOctets | src/hdlc_frame.h:26-39 | the octets of I, RR, RNR and REJ frames as numbers: N(S), P/F and N(R) in their places |
| Frame.UnnumberedOctets | src/hdlc_frame.h:44-54 | the octets of the unnumbered frames |
| Frame.HandedWhole | src/hdlc_in.c:48-55 | handing the length on in 16 bits leaves the info field whole if and only if it is shorter than 65536 octets |
| Frame.StuffIsTransparent | src/hdlc_frame.h:84-91 | between flags no 0x7E occurs, and each 0x7D is followed by 0x5D or 0x5E |
| Frame.StuffRoundTrip | src/hdlc_frame.h:84-91 | removing the escapes gives back exactly what was stuffed |
| Frame.FrameWriter.PutEscaped | src/hdlc_frame.h:84-91 | one octet goes out, escaped if it is a flag or an escape |
| Frame.FrameWriter.Emit | src/hdlc_frame.h:93-96 | the octet enters the FCS and goes out |
| Frame.FrameWriter.FrameBegin | src/hdlc_frame.h:98-106 | flag, address and control go out, and the FCS is theirs, from the start value of Crc.FramesStartAllSet |
| Frame.FrameWriter.FrameEnd | src/hdlc_frame.h:108-112 | the FCS, low octet first, and the closing flag go out |
| Frame.FrameWriter.FrameSend | src/hdlc_frame.h:114-120 | what goes out is the encoding of the frame, FCS included |
| Frame.SabmOnTheLine | src/hdlc_frame.h:98-120 | a SABM with P set to address 2 is 7E 02 3F 7C 0A 7E on the line |
| Frame.FrameWriter.TransmitUiStart | src/hdlc_out.c:80-84 | the header of a UI frame goes out |
| Frame.FrameWriter.TransmitUiData | src/hdlc_out.c:86-91 | a piece of its payload goes out and enters the FCS |
| Frame.FrameWriter.TransmitUiEnd | src/hdlc_out.c:93-97 | its FCS and flag go out |
| Frame.FrameWriter.StreamUi | src/hdlc_out.c:80-97 | a payload streamed in any pieces puts the same octets on the line as the one-shot UI frame for the whole |
| Receiver.ChunkingIsInvisible | src/hdlc_in.c:105-112 | how a stream is cut into calls of data_in changes neither the frames dispatched nor the receiver's state |
| Receiver.CutAtFlags | src/hdlc_in.c:64-73 | junk, segments and tail, none of which holds a flag, are every stream cut at its flags |
| Receiver.RunKeepsInvariant | src/hdlc_in.c:80-102 | over every stream the buffer stays in bounds, and its FCS covers all but the last two octets stored |
| Receiver.DecoderMeetsSpecification | src/hdlc_in.c:32-103 | for every stream the frames dispatched are exactly those the cut stream carries: long enough, fitting, for a known address, with a matching FCS; the length of the info field is handed on in 16 bits |
| Receiver.FrameRoundTrip | src/hdlc_in.c:32-103 | the octets of a frame dispatch exactly that frame as handed on, from whatever receiver state, if its address is known and it fits, and leave the receiver idle |
| Receiver.FrameArrivesWhole | src/hdlc_in.c:48-55 | a frame that fits is dispatched whole if and only if its info field is shorter than 65536 octets |
| Receiver.LongFrameArrivesEmpty | src/hdlc_in.c:48-55 | of an info field of 65536 octets nothing is handed on |
| Receiver.FramesRoundTrip | src/hdlc_in.c:32-112 | frames back to back arrive each once and in order |
| Receiver.DamagedFrameIsDropped | src/hdlc_in.c:36-43 | a frame damaged within 16 consecutive bits or in an odd number of bits dispatches nothing, and the receiver is ready for the next |
| Receiver.FrameReader.Completed | src/hdlc_in.c:32-58 | the checks of handle_flag on the buffer let through exactly the frame of the specification, its info length cut to 16 bits |
| Receiver.FrameReader.Put | src/hdlc_in.c:80-102 | the store into the buffer, with the lagging FCS, is the step of the specification |
| Receiver.FrameReader.Take | src/hdlc_in.c:64-103 | rx_byte for an octet that is no flag is the step of the specification |
| Station.Station.SetState | src/hdlc_station.c:200-210 | the state changes, and the event is reported if it did or is CONN_REQ |
| Station.Station.FrameSend | src/hdlc_frame.h:114-120 | the octets sent so far are the encodings of the frames in the history |
| Station.Station.SendFrmr | src/hdlc_frame.h:156-175 | the rejected octet and the reason are kept and sent, T2 stops, T1 starts |
| Station.Station.ResetState | src/hdlc_dispatch.c:14-27 | counters, flags, timers, n2 and slot lengths are cleared, and nothing else |
| Station.Station.FramesAcked | src/hdlc_dispatch.c:29-42 | V(A) moves, n2 restarts, WINDOW_OPEN if the window was full |
| Station.Station.ProcessNr | src/hdlc_dispatch.c:44-52 | as Link.ProcessNr |
| Station.Station.TriggerRetransmit | src/hdlc_dispatch.c:54-60 | as Link.TriggerRetransmit: a replay is due from N(R) |
| Station.Station.ValidateNr | src/hdlc_dispatch.c:140-149 | answers whether N(R) lies between V(A) and V(S) modulo 8; if not, FRMR Z and FRMR_ERROR |
| Station.Station.HandleInSequence | src/hdlc_dispatch.c:151-173 | the new context is Link.InSequence of the old |
| Station.Station.HandleOutOfSequence | src/hdlc_dispatch.c:175-186 | the new context is Link.OutOfSequence of the old |
| Station.Station.HandleIFrame | src/hdlc_dispatch.c:188-203 | the new context is Link.HandleI of the old |
| Station.Station.HandleSFrame | src/hdlc_dispatch.c:205-253 | the new context is Link.HandleS of the old |
| Station.Station.HandleUFrame | src/hdlc_dispatch.c:255-312 | the new context is Link.HandleU of the old |
| Station.Station.InDisconnected | src/hdlc_dispatch.c:62-97 | the new context is Link.InDisconnected of the old |
| Station.Station.InConnecting | src/hdlc_dispatch.c:99-138 | the new context is Link.InConnecting of the old |
| Station.Station.InConnected | src/hdlc_dispatch.c:314-322 | the new context is Link.InConnected of the old |
| Station.Station.InDisconnecting | src/hdlc_dispatch.c:324-367 | the new context is Link.InDisconnecting of the old |
| Station.Station.InFrmrError | src/hdlc_dispatch.c:369-383 | the new context is Link.InFrmrError of the old |
| Station.Station.DispatchFrame | src/hdlc_dispatch.c:385-406 | the new context is Link.Dispatch of the old |
| Station.Station.StoreSlot | src/hdlc_out.c:59-61 | after the copy into the flat slot memory this slot holds the payload and every other slot what it held |
| Station.Station.TransmitI | src/hdlc_out.c:42-78 | the error code and the new context are those of Link.TransmitI |
| Station.Station.TransmitUi | src/hdlc_out.c:14-26 | the error code and the new context are those of Link.TransmitUi |
| Station.Station.TransmitTest | src/hdlc_out.c:28-40 | the error code and the new context are those of Link.TransmitTest |
| Station.Station.RetransmitOutstanding | src/hdlc_in.c:14-30 | the loop over V(S) and the slot index terminates and sends exactly the frames of the closed form Link.Replayed, with V(S) restored and T1 running |
| Station.InReplayIs | src/hdlc_in.c:22-28 | after k turns the loop has sent the first k frames of the closed form |
| Station.Station.HandleFlag | src/hdlc_in.c:32-62 | dispatches the frame the flag completes, if any, and idles the receiver |
| Station.Station.RxByte | src/hdlc_in.c:64-103 | one octet: the receiver takes the step of the specification, the machine that of the frame completed |
| Station.Station.DataIn | src/hdlc_in.c:105-112 | a call of data_in dispatches the frames its octets complete, in order, and then does the replay that is due |
| Station.Init | src/hdlc_station.c:14-59 | the status names the first geometry check that fails; with none the context is the initial one, hunting, and begins a run |
| Station.InitAcceptsExactly | src/hdlc_station.c:14-46 | init takes a geometry if and only if the receive buffer holds the station's own largest frame and the slots, 1 to 7 if there are any, its own largest payload |
| Station.Station.LinkSetup | src/hdlc_station.c:61-74 | the error code and the new context are those of Link.LinkSetup |
| Station.Station.Disconnect | src/hdlc_station.c:76-87 | the error code and the new context are those of Link.Disconnect |
| Station.Station.LinkReset | src/hdlc_station.c:89-99 | the new context is Link.LinkReset of the old |
| Station.Station.SetLocalBusy | src/hdlc_station.c:101-117 | the error code and the new context are those of Link.SetLocalBusy |
| Station.Station.T1Expired | src/hdlc_station.c:119-168 | the new context is Link.T1Expired of the old, n2 an octet |
| Station.Station.T2Expired | src/hdlc_station.c:170-178 | the new context is Link.T2Expired of the old |
| Station.Station.Abort | src/hdlc_station.c:186-198 | two flags go out, the context is reset and DISCONNECTED, the receiver hunts |
| Runs.DispatchSequence | src/hdlc_dispatch.c:385-406 | what any frame in any state does to V(S), V(R), V(A), the ring and the histories |
| Runs.EnterKeepsRing | src/hdlc_out.c:56-61 | storing the next payload keeps slot i mod slot_count holding payload i for the last slot_count payloads |
| Runs.DispatchKeepsInside | src/hdlc_dispatch.c:385-406 | whatever frame arrives in whatever state, window, ring, timer and retry invariant survive |
| Runs.StepKeepsInvariant | src/hdlc_station.c:61-198 | every call keeps the invariant, and leaves no replay due |
| Runs.RunsKeepInvariant | src/hdlc_dispatch.c:29-60 | in every state of every run, against any peer: V(S) and V(R) are the counts accepted and delivered modulo 8, at most slot_count frames are out, T1 runs whenever something is unanswered, n2 is within its limit, no replay is left due |
| Runs.OwnCallsAreAllowed | src/hdlc_out.c:56-61 | in every state of every run the calls of user and timers stay within the slots; only data_in may not, and Replay says when |
| Epochs.EpochsAdvance | src/hdlc_dispatch.c:29-35 | between resets nothing accepted or delivered is taken back, and V(A) only moves forward and never past V(S) |
| Epochs.StepAdvances | src/hdlc_dispatch.c:29-52 | a call that resets nothing acknowledges no more than was accepted before it |
| Epochs.ConnectionsStartFresh | src/hdlc_dispatch.c:62-383 | each way into CONNECTED by a frame starts a new epoch with all counters, flags and timers clear |
| Epochs.OnlyFramesConnect | src/hdlc_station.c:61-198 | no other call enters CONNECTED |
| Epochs.IFramesDeliver | src/hdlc_dispatch.c:151-203 | on_data gets the payload of an I-frame exactly when N(R) is valid and N(S) = V(R), once |
| Modes.FramesReport | src/hdlc_dispatch.c:62-406 | whatever frame arrives in whatever state, the state changes just with one event that stands for the new one, and which event it is depends on the frame as listed: DISC, DM, FRMR, SABM and an invalid N(R) in CONNECTED, UA and DM with F in CONNECTING and DISCONNECTING, SABM in DISCONNECTED and FRMR_ERROR, and nothing else |
| Modes.CallsReport | src/hdlc_station.c:61-210 | so it is with calls, but that an abort is not reported |
| Modes.EventsTellState | src/hdlc_station.c:200-210 | in every state of every run a user who sees the events and knows his own aborts knows the state |
| FlowControl.PeerIsBusyExactly | src/hdlc_dispatch.c:215-230 | in every connected state of every run transmit_i is refused because the peer is busy if and only if the last RR, RNR or REJ received since the reset was an RNR |
| FlowControl.FlowIsReportedExactly | src/hdlc_dispatch.c:215-230 | in every run PEER_BUSY and PEER_READY are reported just when an RNR begins that condition and an RR ends it, in that order |
| FlowControl.AcceptedExactly | src/hdlc_out.c:42-58 | in every state of every run transmit_i accepts a payload if and only if the station is connected, that last word is not RNR, the payload fits, and in true counts fewer payloads than there are slots are unacknowledged |
| FlowControl.RefusalsTellWhy | src/hdlc_out.c:42-58 | and each error code is returned only for its own reason, WINDOW_FULL with exactly slot_count payloads unacknowledged |
| FlowControl.LocallyBusyExactly | src/hdlc_station.c:101-117 | in every state of every run the station is busy if and only if the last set_local_busy in CONNECTED asked for it and no reset has come since |
| FlowControl.BusyStationsSaySo | src/hdlc_dispatch.c:151-173 | in every run the next payload is acknowledged by a station that the user declared busy with an RNR, at once unless T2 runs, and else with an RR, at once if polled and by T2 if not; the frame bears its own address and the new V(R) |
| FlowControl.DelayedAcknowledgement | src/hdlc_station.c:170-178 | when T2 goes off, an RNR under the station's own address or an RR under the peer's, by the same condition |
| Replay.ReplayIsFaithful | src/hdlc_in.c:14-30 | the replay sends the last payloads accepted, each under its own N(S) and from its own slot, in order, though slot_count need not divide 8; V(S) and ring are as before |
| Replay.OperandInBounds | src/hdlc_in.c:18-20 | the truncating remainder, cast to an octet, is a slot within the memory if and only if the operand is not negative or slot_count divides it |
| Replay.OneFrameReplaysOutstanding | src/hdlc_in.c:20-28 | with one frame per call the replay begins within the slot memory and the replay repeats exactly the frames between V(A) and V(S) |
| Replay.FramesKeepReplayOk | src/hdlc_in.c:105-112 | any number of frames may come in one call if none resets the link |
| Replay.ResetLeavesReplayDue | src/hdlc_dispatch.c:14-27 | a reset leaves a due replay due; it begins within the slot memory, and is empty, exactly under the stated conditions |
| Replay.RejThenSabm | src/hdlc_in.c:18-20 | a REJ and a SABM in one call begin the replay within the slot memory if and only if N(R) = 0, or 8 - N(R) <= slot_count, or slot_count divides 8 - N(R) |
| Replay.CallIsAllowedExactly | src/hdlc_in.c:105-112 | for every call of data_in, whatever frames it completes, the replay begins within the slot memory if and only if the replay due at the call's first reset, if there is one, begins within an empty ring |
| Replay.CallSendsNothingStaleExactly | src/hdlc_in.c:105-112 | for every call of data_in the replay sends only payloads handed over since the last reset if and only if the replay due at the call's first reset, if there is one, starts at N(R) = 0 |
| Replay.NothingToReplay | src/hdlc_dispatch.c:54-60 | with nothing accepted since the reset no frame triggers a replay, nor stops one that is due |
| Replay.ExampleLeavesMemory | src/hdlc_in.c:18-20 | a run, with a window of three and two frames out, to a state from which a REJ for frame 1 and a SABM in one call leave the slot memory |
| Replay.OneFrameConnectsFresh | src/hdlc_dispatch.c:113-120 | a call that completes one frame and so connects leaves the station fresh |
| Acknowledgement.DispatchDropsDebt | src/hdlc_dispatch.c:151-186 | a frame leaves a delivered payload neither covered by an N(R) sent nor by T2 if and only if it is an unrecognised U-frame and there was such a payload |
| Acknowledgement.ExampleDropsDebt | src/hdlc_dispatch.c:300-312 | a run, a SABM, an I-frame and then a UA, that ends with an acknowledgement owed and T2 off |
| Acknowledgement.RunsKeepDebt | src/hdlc_station.c:170-178 | in every run in which no frame is an unrecognised U-frame in the state that it meets, T2 runs whenever a connected station owes an acknowledgement |
| Acknowledgement.DispatchSpends | src/hdlc_dispatch.c:175-186 | a frame takes a payload, resets, or sends a REJ only if it begins the exception |
| Acknowledgement.OneRejPerException | src/hdlc_dispatch.c:151-186 | in any stretch of a run with no payload taken and no reset at most one REJ is sent, none if the exception had begun |
| Acknowledgement.OneRejBetweenMoments | src/hdlc_dispatch.c:151-186 | the same between any two moments, also after any frame within a call of data_in |
| Exceptions.RejsExactly | src/hdlc_dispatch.c:151-186 | in every state of every run exactly as many REJs have been sent as exceptions have begun, and the station is in an exception just from an I-frame out of sequence to the next in sequence or a reset |
| Timers.T1RunsExactly | src/hdlc_dispatch.c:44-52 | in every run whose calls of data_in complete at most one frame each, and none that CONNECTED does not recognise, T1 runs in CONNECTED if and only if something is unacknowledged in true counts, always in CONNECTING and DISCONNECTING, never in DISCONNECTED |
| Timers.FramesSetT2 | src/hdlc_dispatch.c:151-253 | of an I- or S-frame with a valid N(R): T2 is started by a payload taken in silence, stopped by whatever is sent but the RR within an exception, and else left alone |
| Retries.SilentRunsCount | src/hdlc_station.c:123-126 | with no reset and no new acknowledgement n2 grows by exactly the T1 expiries |
| Retries.BoundedRetry | src/hdlc_station.c:119-133 | for limits 1 to 254, T1 expiry number max_retries - n2 + 1 of such a stretch, and none before, takes the link down and reports LINK_FAILURE, once |
| Retries.UnlimitedRetriesNeverEnd | src/hdlc_station.c:125-128 | with limit 0 or 255 T1 never takes the link down |
| Rejection.InvalidNrIsRejected | src/hdlc_dispatch.c:140-149 | an invalid N(R) draws an FRMR under the station's own address with the rejected octet, V(R) and V(S), and reason Z, after the answer to a poll if it was one; T1 runs and the state is FRMR_ERROR |
| Rejection.UnrecognisedIsRejected | src/hdlc_dispatch.c:307-310 | an unrecognised U-frame draws one with reason W and leaves the station connected |
| Rejection.FrmrIsRepeated | src/hdlc_station.c:159-163 | in every run, however long FRMR_ERROR lasts without a reset, each T1 expiry with a retry left sends the FRMR again that the rejected frame drew, with the octets of that moment |
| Answers.PollsAreAnswered | src/hdlc_dispatch.c:151-186 | in CONNECTED every poll with a valid N(R), by I-frame or supervisory command, is answered by exactly one supervisory frame with the P/F bit and the new V(R): by a response if and only if it begins no REJ exception, else by a REJ under the peer's address |
| Answers.NoUnsolicitedFinal | src/hdlc_dispatch.c:62-406 | whatever frame arrives in whatever state, nothing sent at once bears the P/F bit unless the frame did |
| Answers.SabmIsAnswered | src/hdlc_dispatch.c:62-383 | a SABM is answered in every state with its own P/F bit, with UA except in DISCONNECTING |
| Answers.SabmConnects | src/hdlc_dispatch.c:62-383 | it leads to CONNECTED except from DISCONNECTING and CONNECTING |
| Answers.DiscIsAnswered | src/hdlc_dispatch.c:62-383 | a DISC is answered in every state but FRMR_ERROR, which it leaves untouched |
| Answers.OtherModesAreRefused | src/hdlc_dispatch.c:86-92 | SNRM, SABME, SNRME and SARME are refused with DM and their own P/F bit, and do nothing else, in CONNECTED and in DISCONNECTED; so is SABME in DISCONNECTING |
| Answers.UnconnectedHeedsExactly | src/hdlc_dispatch.c:62-383 | out of CONNECTED a frame is ignored altogether if and only if it is none of those listed for the state |
| Answers.DisconnectingAnswersPolls | src/hdlc_dispatch.c:324-334 | in DISCONNECTING an I- or S-frame is answered with DM and F if it is a poll, and dropped if not |
| Answers.WindowOpensExactly | src/hdlc_dispatch.c:29-52 | WINDOW_OPEN is reported, and once, if and only if an I- or S-frame, a REJ among them, makes room in a full window |
| Emission.DispatchEmits | src/hdlc_dispatch.c:314-322 | whatever a connected station answers to a frame with valid N(R), or to UI or TEST, bears the true numbers modulo 8 |
| Emission.FlushEmits | src/hdlc_in.c:14-30 | so does every frame of a replay, none of them more than a window back |
| TwoStations.NsTestIsExact | src/hdlc_dispatch.c:199-202 | of a frame that arrives, whose true index is within r - 7 .. r + 6, N(S) = V(R) modulo 8 if and only if it is the payload that is next |
| TwoStations.NrTestPasses | src/hdlc_dispatch.c:140-149 | N(R) of a frame that arrives is valid, and V(A) comes to stand for exactly the count it meant |
| TwoStations.ArrivalsAgree | src/hdlc_in.c:105-112 | any number of frames in one call keep both directions in agreement |
| TwoStations.NextKeepsSafe | src/hdlc_dispatch.c:188-253 | every move of either station, every arrival and every loss keeps the system safe |
| TwoStations.HistoriesAreSafe | src/hdlc_dispatch.c:188-253 | so every reachable state is safe, whatever addresses the two stations hold, if no payload in either direction can both be accepted and arrive cut |
| TwoStations.DeliveredIsPrefixOfAccepted | src/hdlc_dispatch.c:188-203 | under the same condition on the two geometries: in every reachable state what either end has delivered is a prefix of what the other has accepted, and in each direction V(A) <= delivered <= V(S) <= V(A) + 7 in true counts |
| TwoStations.PrefixesExactly | src/hdlc_in.c:48-83 | for stations with transmit windows that take each other's I-frame addresses, every history from an opening has the prefix property if and only if in each direction max_info_size is below 65536 or the receive buffer below 65540 octets |
| TwoStations.LongPayloadIsLost | src/hdlc_in.c:48-55 | otherwise, from any such opening, one payload of 65536 octets is accepted and an empty one delivered |
| TwoStations.ArrivalsAreUnderstood | src/hdlc_dispatch.c:140-203 | in every reachable state both ends are connected, and of every frame on its way, either way, N(R) passes validate_nr, N(S) = V(R) holds just for the payload that is next, and no U-frame is there but UI and TEST |
| TwoStations.ArrivalIsPossible | src/hdlc_in.c:14-30 | in a safe system no call of data_in reads a slot out of bounds |
| Handshake.HandshakeOpens | src/hdlc_dispatch.c:69-120 | from any two initialised stations link_setup, the SABM and the UA lead to an opening; the called station still holds address 0 |
| Handshake.ResetOpens | src/hdlc_station.c:89-99 | link_reset in any state, with the SABM and the UA heard, leads to an opening too |
| Handshake.CommandIsRepeated | src/hdlc_station.c:136-145 | as long as its retries last a connecting station sends the same SABM at every T1 expiry, a disconnecting one the same DISC, and nothing else changes |
| Handshake.SetupSurvivesLosses | src/hdlc_station.c:136-140 | after any number of lost SABMs or UAs, with one retry left, T1, the SABM and the UA heard lead to an opening, whether the peer was disconnected, had connected already or was in FRMR_ERROR |
| Handshake.ReleaseCloses | src/hdlc_dispatch.c:266-271 | Disconnect at one of two connected stations, with the DISC and the UA heard, leaves both DISCONNECTED; PEER_DISC is reported at one, DISC_DONE at the other |
| Handshake.ReleaseSurvivesLosses | src/hdlc_station.c:141-145 | so do, after any number of lost DISCs or UAs, with one retry left, T1, the DISC and the UA |
| Handshake.DiscIsHeard | src/hdlc_station.c:76-87 | a DISC is heard if and only if the address its sender holds for the peer is one that the peer takes |
| Handshake.AcknowledgementIsHeard | src/hdlc_station.c:170-178 | the T2 acknowledgement of a station that is not busy is heard if and only if the address it holds for the peer is one that the peer takes |
| Handshake.RejIsHeard | src/hdlc_frame.h:152-154 | so is a REJ |
| Handshake.IFrameIsHeard | src/hdlc_out.c:69 | and an I-frame that the peer's buffer takes |
| Handshake.PassiveIsHeard | src/hdlc_station.c:67 | for the station that was called this means that one of the two addresses is 0 |
| Recovery.ReplayIsTaken | src/hdlc_dispatch.c:151-173 | the receiver takes the whole replay, in silence, with T2 running |
| Recovery.RecoveryCompletes | src/hdlc_station.c:148-178 | from every safe state with frames unacknowledged, empty channels, nobody busy, addresses held both ways and a retry left, the round T1, RR P=1, RR F=1 ends with everything accepted delivered and V(A) = V(S) if only the acknowledgement was lost; otherwise it goes on with the replay, T2, which is running, and RR, and ends so |
| Recovery.RecoveryOfBusyReceiver | src/hdlc_dispatch.c:151-173 | a receiver that is busy takes the replay all the same and answers each frame with an RNR; when these have arrived everything is delivered and acknowledged |
| Recovery.UnpairedReceiverIsSilent | src/hdlc_station.c:170-178 | a receiver without the peer's address takes the replay too, but its acknowledgement is not heard |
| Recovery.SecondEnquiryCompletes | src/hdlc_station.c:148-168 | a second enquiry, with a second retry left and T1 running, then ends with everything acknowledged |
| Recovery.EnquiryIsCommandUnlessBusy | src/hdlc_frame.h:140-150 | the T1 enquiry reaches the peer as a command if and only if the enquirer is not busy |
| Recovery.BusyEnquiryIsNotAnswered | src/hdlc_dispatch.c:232-235 | an enquiry that is no command gets no answer |
| BusyPeer.BusyStopsPeer | src/hdlc_station.c:101-117 | from any settled pair: set_local_busy(true) at one, and the payload that the other then sends is delivered and answered with an RNR, which closes transmit_i there and is reported |
| BusyPeer.ClearanceOpensPeer | src/hdlc_station.c:110-114 | set_local_busy(false) then sends an RR, which opens it again if it is heard, and is reported |
| BusyPeer.ClearanceIsSentOnce | src/hdlc_station.c:110-114 | if that RR is lost, or not taken for its address, transmit_i stays closed, with nothing on its way and no timer running |
| BusyPeer.SettledStays | src/hdlc_out.c:47-48 | and then neither a refused transmit_i nor the line changes anything |
| Datagrams.DatagramsAreSent | src/hdlc_out.c:14-40 | transmit_ui and transmit_test send a UI frame, and a TEST frame with P set, in any state, and refuse just what is longer than max_info_size |
| Datagrams.UiIsDelivered | src/hdlc_dispatch.c:81-84 | a UI frame that a station takes is delivered, once, in CONNECTED and DISCONNECTED and in no other state, and changes nothing else |
| Datagrams.BroadcastIsHeard | src/hdlc_in.c:90-94 | every station takes a frame for address 0xFF that its buffer takes |
| Datagrams.TestIsEchoed | src/hdlc_dispatch.c:291-298 | a TEST command is answered with the same payload and P/F bit under the address of the station asked, and the answer is delivered at the other, unless nothing is left of the payload |
| Line.WireIsHeard | src/hdlc_in.c:105-112 | the octets one station sends, given to the other's data_in, dispatch exactly the frames of the channel that it hears |
| Line.CallIsHeard | src/hdlc_in.c:105-112 | a call that begins and ends anywhere within frames dispatches exactly the frames that it completes, and leaves the receiver where reading the rest of the next frame goes on |
| Line.AbortSends | src/hdlc_station.c:186-198 | an abort puts two bare flags on the line |
| Line.AbortIsRead | src/hdlc_in.c:32-62 | after which any receiver, in the middle of whatever, is idle and reads the next frame as it was sent |
| Line.MoveRefines | src/hdlc_in.c:64-112 | with the octets on their way and both receivers in the state, every call of data_in with any number of octets is one arrival of the two-station system, every other call within the connection and every loss the same move there |
| Line.LineHistoriesRefine | src/hdlc_in.c:105-112 | every history of octets from an opening, with sends, timers, losses and calls of data_in interleaved anyhow, is a history of the two-station system, under the same condition on the geometries |
| Line.LinePrefixes | src/hdlc_in.c:105-112 | so, under the condition on the two geometries, after any number of octets what is delivered is a prefix of what was accepted |
| Line.TakeIsPossible | src/hdlc_in.c:14-30 | and no call of data_in with octets on their way reads a slot out of bounds |

## Left out

- The callbacks' own behaviour: `on_send`, `on_data` and `on_event` append to histories and do not call back into the
  library; the flush argument of `on_send` and the timer callbacks are not modelled, only the timer flags.
- NULL checks, `user_ctx` and logging; a data pointer that is NULL with a length above zero. A station without a
  transmit window has `slotCount` 0.
- Bit positions of the flags octet: the six flags are booleans.
- 32-bit wrap-around of lengths and capacities: `max_info_size + 4` and `rx_index` are unbounded here. n2 does wrap at
  256, and the length of a received info field at 65536.
- Station.Station.DataIn: requires that a due replay stays within the slot memory, because a call with a REJ and then a
  reset may leave it; Replay says exactly when.
- Two-station claims across several connection epochs: frames do not tell epochs apart. A history begins with both
  ends connected and freshly reset, as a handshake without losses leaves them, and link failure ends it.
- Losses within a frame: on the line a frame is lost whole, and before the receiver was given a part of it. What a
  damaged frame does to a receiver is in Receiver.
- Recovery while further frames are lost or the enquirer is busy: each round is without loss.
- The error detection theorems are about the software CRC; the other theorems hold of any checksum driver.
- The three calls that stream a UI frame are not cases of Call: StreamUi is about a stream that nothing interrupts, not
  about frames that the machine sends in the middle of one.
- The simultaneous-SABM handshake as a protocol of its own.
- Examples, test harnesses, serial ports, threads and the microcontroller template.
