# Sonix, verified in Dafny

Sonix is an HTTP/1.1 and WebSocket server with a small application framework, written in
Python without third-party parsers. This project models its four stateful parts and proves
what they are for. `dafny verify dfyconfig.toml` checks everything.

**The incremental HTTP parser** (`HttpText`, `HttpParser`, `HttpSegmentation`,
`HttpExchanges`, `HttpRoundTrip`, `HttpHandOff`, and what its texts mean: `Spelling`, `Numerals`,
`HttpLists`, `HttpGrammar`, `HttpPrinting`, `HttpRefusals`). The parser is a class whose methods shorten
a buffer and move nested state machines; each method is proved equal to one step `Next` of a
pure transition function, and `feed_data` to running that function until it waits or raises.
About that function: the events are whole exchanges with the body length their own head
declares; printing requests and parsing them gives them back; cutting the stream differently
changes nothing; at an upgrade no octet is lost. What a line, a number or a list is taken for is
said without the parser's functions: texts in their own spelling, numbers by a printer of digits,
lists by what stands between the commas, and each of the two errors by the octets that call for it.

**The WebSocket frame codec** (`Masking`, `Utf8`, `Frames`, `FrameParser`,
`FrameSegmentation`, `FrameRoundTrip`, `FrameOctets`, `FrameVerdicts`, `CloseFrames`, `CloseCodes`). Masking is modelled as Python does it,
one exclusive-or of two big integers, and proved to be the octet-wise rule of section 5.3 of
RFC 6455. The decoder is a class proved against a pure one, and the encoder and what the decoder
takes, awaits or refuses are read off the bits of sections 5.2 to 5.5 and the codes of section 7.4.

**The connection bridge**, in two halves that share one transport. `Pipeline`, `PipelineTurns`,
`PipelineBodies`, `PipelineSent`, `PipelineTails`, `PipelineFlow` and `HttpConnection` are pipelined
HTTP: tasks chained by a turn to write, one queue of body messages each. `WsSession`, `WsWrites`,
`WsCauses`, `WsInbox`, `WsAccepts`, `WsPeer`, `WsHearing` and `WsConnection` are a websocket session
on a connection of its own. `PipelineSessions`,
`PipelineUpgrade`, `PipelineOrder`, `Handshakes` and `PipelineWitness` put the two together: the
state of a pipelined connection holds the state of the session behind its requests, and what the
session reads and writes goes over the same transport. Both are step relations: a step is one
event-loop callback or one stretch of a task between two awaits, steps come in any order that
their guards allow, and the wire and what was received are history. The classes hold the fields
of `HTTPProtocol` and update them in place; every method's postcondition is a step of the
relation, so what is proved about all runs is about the methods. In both directions the wire is
tied to the applications: a response is what its own application passed (`PipelineSent`), and a
client of a session decodes what was sent, answered and announced along the run (`WsHearing`).

**Dependency injection** (`DiPlan`, `DiGraph`, `DiResolve`, `DiRefinement`, `DiMeaning`). Planning walks a
graph of callables and refuses cycles; execution uses a per-request cache, flattened query
parameters and an exit stack. Execution is proved to give what a plain recursion gives, and that
is what the declarations mean, parameter by parameter.

## What was found

* **A line of exactly `max_header_size` octets** is read when its CRLF arrives with it and
  refused as too large when the feed ends between CR and LF
  (`src/sonix/server/parser.py:219-229`). `HttpSegmentation.SegmentationIndependent` gives the
  exact condition under which segmentation does not matter, as an if-and-only-if;
  `HttpSegmentation.NoExactLineNoDifference` is the form a caller can use, and
  `HttpRoundTrip.ExactLineDependsOnCut` a request line of fourteen octets that shows it.
* **A handshake pipelined behind a request is read ahead of its turn.** `_begin_websocket` pauses
  reading, but an earlier application that receives a queued message resumes it
  (`src/sonix/server/protocol.py:668-674`). What then arrives is decoded in CONNECTING, and the
  pong or close frame that answers it does not wait for the session's turn
  (`src/sonix/server/protocol.py:809-837`, `src/sonix/server/protocol.py:854-879`): it lands inside
  the earlier response, and the octets held behind the handshake are decoded later than it.
  `PipelineWitness.PongInsideResponse` is such a run, octet by octet, for any request with a body
  of declared length and any valid handshake in one segment, and `PipelineWitness.OrderCanBreak`
  has both written out. For a session that has just begun, `PipelineUpgrade.ResponsesExactlyIfTimely`
  proves that responses keep their order on every later run if and only if its turn is already
  open or no earlier application that has not ended has a message left to receive;
  `PipelineOrder.WireExactlyIfQuiet` that the whole wire does, the session's part included, if and
  only if none has; and `PipelineOrder.DecodingExactlyIfQuiet` that decoding does if and only if
  none has or nothing is held. With the handshake as the first request all three hold
  (`PipelineOrder.FirstRequestInOrder`, `PipelineUpgrade.FirstRequestIsTimely`).
* **Accepting with a subprotocol that is not ASCII** sets the state to CONNECTED before the 101 is
  encoded, and the encoding raises (`src/sonix/server/protocol.py:980-983`). When the task then ends a close
  frame goes out on a connection that never saw a 101. `WsSession.AcceptIsExact` proves that
  the wire stays in order on every later run if and only if the subprotocol can be encoded. What
  is received suffers too: if octets are held and connect still waits in the queue, receiving it
  resumes reading, and what is read next is decoded without the octets held.
  `WsAccepts.UnwrittenAcceptSkips` is such a run.
* **Accepting after the connection was lost** reopens a session that has already told its
  application that it ended: the messages in the octets held come behind the disconnect.
  `WsAccepts.LateAcceptReopens` is such a run, with one text message held, and
  `WsAccepts.LateAcceptIsExact` proves for every later run that the order is kept if and only if
  the octets held spell no data message.

* **An application that ends without its body can stop its connection.** Reading is paused behind a
  full queue and goes on only in `receive` (`src/sonix/server/protocol.py:668-674`); the callback of a
  finished task does not look at it (`src/sonix/server/protocol.py:569-601`).
  `PipelineFlow.ResumesIffBacklogIsRead` proves that paused reading can go on, before the connection
  is lost, if and only if some application that has not ended has a message left.

`WsAccepts.AcceptOrderIsExact` puts the two about accepts together: an accept keeps the order of what is
received on all later runs if and only if it is `Harmless`, a condition on the state before the
call. `WsInbox.ReceivesInOrder` is about the runs whose accepts are; a client that sent nothing
behind its handshake has no others (`WsAccepts.NothingHeldNothingDisturbed`).

## Model

| member | source | states |
|---|---|---|
| Masking.MaskIsBytewise | src/sonix/server/websockets.py:160-172 | the big-integer form equals exclusive-or of octet i with key octet i mod 4, for every length |
| Masking.MaskInvolution | src/sonix/server/websockets.py:160-172 | masking keeps the length and is its own inverse |
| Utf8.DecodeEncode | src/sonix/server/websockets.py:561-565 | strict decoding returns every encodable text from its encoding |
| Utf8.EncodeDecode | src/sonix/server/websockets.py:561-565 | whatever decodes is the encoding of what it decodes to, so overlong forms and surrogates are refused |
| Utf8.TruncateUtf8 | src/sonix/server/websockets.py:240-250 | the loop returns the longest valid prefix within the limit |
| Utf8.TruncationKeepsWholeCharacters | src/sonix/server/websockets.py:240-250 | that prefix is the longest run of whole characters, at most three octets short of the limit |
| FrameDecoding.FrameParser.TakeFrameInPlace | src/sonix/server/websockets.py:413-499 | takes one frame off the buffer, or reports starvation or the violation and leaves it, as the pure TakeFrame does, which `FrameVerdicts.TakeFrameExact` reads off the bits |
| FrameDecoding.FrameParser.HandleFrameInPlace | src/sonix/server/websockets.py:501-541 | reassembles fragments in place, as the pure HandleFrame does, whose effect `FrameVerdicts.HandleFrameExact` and `CloseCodes.CloseFrameExact` read off the octets |
| FrameDecoding.FrameParser.FeedData | src/sonix/server/websockets.py:385-411 | the loop's events, violation and final state are those of Feed |
| FrameVerdicts.TakeFrameExact | src/sonix/server/websockets.py:413-499 | for every buffer and key rule, from the bits: refused with 1002 for a reserved bit or opcode, a wrong MASK bit, a 64-bit length with its highest bit set, or a control frame that is long or not whole; with 1009 for a data frame over the message limit; starved while octets are missing; else that frame |
| FrameVerdicts.HandleFrameExact | src/sonix/server/websockets.py:501-541 | a data frame must go on with a message exactly when there is one, else 1002; the last one delivers the octets of all fragments, or the text that encodes to them, or 1007 |
| FrameVerdicts.StreamThenRefused | src/sonix/server/websockets.py:385-411 | behind any well-formed stream all of it is reported, and then a frame that its first octets refuse ends decoding with that code |
| FrameDecoding.HandleKeepsValid | src/sonix/server/websockets.py:501-541 | the stored fragments always agree with their recorded size, within the message limit |
| FrameSegmentation.SegmentationIndependent | src/sonix/server/websockets.py:385-411 | any cutting of any stream gives the events, the point and code of the first violation, the message in progress and the octets consumed of a single feed |
| FrameSegmentation.ClosedReadsNothing | src/sonix/server/websockets.py:385-411 | after a close frame no feed is decoded |
| FrameSegmentation.MemoryIsBounded | src/sonix/server/websockets.py:442-493 | buffer plus fragments stay within the message limit plus 138 octets, whatever lengths are declared |
| FrameSegmentation.DrainEndsOnce | src/sonix/server/websockets.py:385-411 | a close event is the last one of a run without a violation, and the decoder is closed exactly then; violations carry 1002, 1007 or 1009 |
| FrameSegmentation.FeedTwice | src/sonix/server/websockets.py:385-411 | feeding two pieces is feeding their concatenation, unless the first one ended the stream |
| FrameOctets.FrameIsSpelled | src/sonix/server/websockets.py:178-214 | an encoded frame is FIN and opcode, MASK and the length in its shortest form, the key and the payload under it; refused exactly for a bad key, a bad control frame or a length over 64 bits |
| FrameOctets.MaskBits | src/sonix/server/websockets.py:160-172 | each bit of a masked octet is the exclusive-or of that bit of the octet and of its key octet |
| FrameOctets.HelloOctets | src/sonix/server/websockets.py:178-214 | the single-frame text message of section 5.7 of RFC 6455 |
| FrameRoundTrip.TakesEncoded | src/sonix/server/websockets.py:178-214 | an encoded frame in front of any octets is taken off whole, unmasked, and nothing more |
| FrameRoundTrip.StreamRoundTrip | src/sonix/server/websockets.py:178-214 | any messages in any fragments with any pings and pongs between them and any masks decode to those control events and whole messages in order; text need be UTF-8 only as a whole |
| FrameRoundTrip.StreamThenRest | src/sonix/server/websockets.py:413-541 | the same in front of any further input |
| CloseCodes.CloseFrameExact | src/sonix/server/websockets.py:543-558 | any close payload in any open decoder: empty is 1005, one octet or a code that may not travel ends decoding with 1002, a reason that is not UTF-8 with 1007, else that code and reason |
| CloseCodes.TwoOctetCloseExact | src/sonix/server/websockets.py:70-77 | two octets are refused with 1002 exactly for codes below 1000, 1004 to 1006, 1015 to 2999 and above 4999 |
| CloseFrames.EncodeCloseFrame | src/sonix/server/websockets.py:217-237 | the frame for a code and the longest whole-character prefix of the reason, with the errors of encoding and packing |
| CloseFrames.CloseRoundTrip | src/sonix/server/websockets.py:217-250 | every sendable code and encodable reason is accepted, fits 125 octets, and decodes to that code and the longest prefix within 123, exactly the reason when it fits |
| CloseFrames.BareCloseRoundTrip | src/sonix/server/websockets.py:217-237 | a close without a code is read as 1005 |
| HttpParsing.HTTP11Parser.FindBoundedLine | src/sonix/server/parser.py:219-229 | the line up to the first CRLF, within the limit, leaves the buffer; otherwise the buffer stays, and there is no CRLF yet or the line is over the limit |
| HttpParsing.HTTP11Parser.ConsumeStartLine | src/sonix/server/parser.py:233-267 | one start line in place is the step of the state machine |
| HttpParsing.HTTP11Parser.HandleHeaderLine | src/sonix/server/parser.py:340-368 | one header line in place: both limits, then the names that decide framing |
| HttpParsing.HTTP11Parser.ReadContentLength | src/sonix/server/parser.py:382-390 | one Content-Length only, digits only, within the body limit; the number is the one that `HttpGrammar.ContentLengthExact` says |
| HttpParsing.HTTP11Parser.ReadTransferEncoding | src/sonix/server/parser.py:392-402 | one Transfer-Encoding only, and only chunked |
| HttpParsing.HTTP11Parser.ReadUpgrade | src/sonix/server/parser.py:370-380 | a second or listed Upgrade spoils the offer |
| HttpParsing.HTTP11Parser.ConsumeHeaders | src/sonix/server/parser.py:269-321 | a header line, or the end of the head with its conflicts and its upgrade |
| HttpParsing.HTTP11Parser.ConsumeBody | src/sonix/server/parser.py:406-425 | one piece of a body of declared length |
| HttpParsing.HTTP11Parser.ConsumeChunkedBody | src/sonix/server/parser.py:427-476 | one step of the chunk machine |
| HttpParsing.HTTP11Parser.FeedData | src/sonix/server/parser.py:143-170 | the loop ends, and its events, error and state are those of Drain |
| HttpParsing.HTTP11Parser.TakeBuffer | src/sonix/server/parser.py:180-194 | hands the buffer over once upgraded and refuses before |
| HttpParsing.HTTP11Parser.FeedEof | src/sonix/server/parser.py:172-178 | a stream may end between requests or after an upgrade only |
| HttpParsing.Next | src/sonix/server/parser.py:152-170 | every step shortens the buffer or takes the one pending step that emits an empty body, so the loop has a measure; in DATA something is always left to read |
| HttpGrammar.RequestLineExact | src/sonix/server/parser.py:244-267 | a line is a request line exactly when it is a token, a space, a target of visible ASCII, a space and one of the two versions, and path and query are the target's parts at the first question mark |
| HttpGrammar.HeaderLineExact | src/sonix/server/parser.py:340-360 | a line is a field exactly when it is a token, a colon and no control octet but tabs |
| HttpGrammar.HeaderLineMeans | src/sonix/server/parser.py:340-368 | a field is recorded under its name in lower case, with the value between the blanks |
| HttpGrammar.ContentLengthExact | src/sonix/server/parser.py:382-390 | a Content-Length is taken as n exactly when it is the first, within the limit, and the digits of n in decimal with any zeros in front; it is too large exactly when it is such digits of a number over the limit |
| HttpGrammar.TransferEncodingExact | src/sonix/server/parser.py:392-402 | a coding is taken exactly when it is the first and the word chunked in any case |
| HttpGrammar.ChunkSizeExact | src/sonix/server/parser.py:427-450 | a size line says n exactly when it is the digits of n in base 16, in any case, with zeros in front, blanks around it and any extension behind it |
| HttpGrammar.UpgradeExact | src/sonix/server/parser.py:323-338 | a head asks to switch exactly when it is an HTTP/1.1 GET with that one offer and the word upgrade in a Connection list |
| HttpLists.TokensAreListed | src/sonix/server/parser.py:362-366 | a word is among the tokens of a value exactly when it stands between its commas, in any case and with blanks around it |
| HttpRefusals.RefusalsExact | src/sonix/server/parser.py:219-476 | in every state a step fails with either error exactly when the octets in front call for it: a line over the limit, a line that is none, counters over their limits, a length or chunk over the body limit, a conflict |
| HttpRefusals.PrintedThenRefused | src/sonix/server/parser.py:143-170 | any messages printed in front of refused input are all reported, and then its error |
| HttpPrinting.PrintedRoundTrip | src/sonix/server/parser.py:382-476 | any messages printed with Content-Length in decimal and any zeros, or in pieces with sizes in base 16 in any case, come back with those heads and bodies and nothing left |
| HttpPrinting.PrintedInPieces | src/sonix/server/parser.py:406-476 | the same through any cutting into feeds |
| HttpSegmentation.SegmentationIndependent | src/sonix/server/parser.py:143-170 | every cutting shows the merged events, the first error and the rest of a single feed if and only if each line of exactly the limit is followed by nothing but a size error |
| HttpSegmentation.NoExactLineNoDifference | src/sonix/server/parser.py:219-229 | without such a line, cutting never matters |
| HttpRoundTrip.ExactLineDependsOnCut | src/sonix/server/parser.py:219-229 | a request line at the limit is read whole and refused when cut between CR and LF |
| HttpExchanges.RecordKeeps | src/sonix/server/parser.py:340-402 | after every header line the running fields say what the recorded list says: one length, one coding, all tokens, the offer |
| HttpExchanges.FaithfulUpgrade | src/sonix/server/parser.py:323-338 | the upgrade detected is the one that the recorded list asks for |
| HttpExchanges.EventsAreExchanges | src/sonix/server/parser.py:279-321 | over any feeds the events are whole exchanges of declared length, then one open request in step with the counters, or one upgrade head and nothing more |
| HttpExchanges.NextMatches | src/sonix/server/parser.py:406-476 | every step keeps the ledger: emitted plus remaining is the declared length, or the chunk total, within the limit |
| HttpExchanges.CompletedRequestEvents | src/sonix/server/protocol.py:233-250 | the loop keeps exactly the events up to the last RequestComplete |
| HttpExchanges.PartialEventsAreWhole | src/sonix/server/protocol.py:233-250 | of any error's partial events what is kept ends a sequence of whole exchanges |
| HttpRoundTrip.PipelinedRoundTrip | src/sonix/server/parser.py:233-321 | any well-formed requests printed back to back, sized, chunked or bodyless, come back with those heads and bodies in order and an empty buffer |
| HttpRoundTrip.RoundTripInPieces | src/sonix/server/parser.py:406-476 | the same through any cutting into feeds, with body pieces joined |
| HttpRoundTrip.ReadsField | src/sonix/server/parser.py:340-368 | a printed field is recorded with its name in lower case and its value trimmed |
| HttpHandOff.LifeIsOneParse | src/sonix/server/parser.py:143-149 | after any feeds and takes without an error, state and octets are those of one parse of the whole stream |
| HttpHandOff.HandOffLosesNothing | src/sonix/server/parser.py:180-194 | all that take_buffer returned and all that is still held is exactly what follows the blank line of the upgrade head |
| HttpHandOff.MemoryIsBounded | src/sonix/server/parser.py:219-229 | between feeds at most max(1, limit) octets are held before an upgrade, and the header list is within both limits |
| PipelineTurns.ResponsesInOrder | src/sonix/server/protocol.py:603-658 | over every interleaving whose session, if any, begins with its turn open or with no earlier message left to receive, the wire is whole responses in request order and at most one partial one, or all of them and then one error response, the timeout response or the session |
| PipelineSessions.ErrorResponseIsLast | src/sonix/server/protocol.py:525-546 | on every run an error response is the last thing on the wire, behind every request's whole response, and closes |
| PipelineTurns.EarliestHasItsTurn | src/sonix/server/protocol.py:548-567 | the earliest request not yet done always has its turn open |
| PipelineTurns.StepKeeps | src/sonix/server/protocol.py:441-658 | every step, the session's included, keeps the chain of turns and the link between a task's stage, event and output; and on runs whose session begins in time the order of the wire |
| PipelineTurns.DrainUpgradeLast | src/sonix/server/parser.py:279-321 | an upgrade head ends its batch of events, and such a batch raised nothing |
| PipelineSent.SentIsSpoken | src/sonix/server/protocol.py:603-658 | over every interleaving what passed a request's turn is the status of its own application's first good head, with its closing decided by the request's Connection words, its version, the length headers and a shutdown, and then each part sent that is not empty, in order and nothing else; once complete, a response that closes has closed |
| PipelineSent.WireIsSpoken | src/sonix/server/protocol.py:631-652 | on timely runs the wire is what the applications said in request order, the last perhaps cut short, or all of it and the one tail |
| PipelineSent.CloseIsAsked | src/sonix/server/protocol.py:166-175 | a client asks to close exactly when some Connection list has the word close, or the version is 1.0 and none has keep-alive |
| PipelineSent.ClosesExactlyIfAsked | src/sonix/server/protocol.py:641-658 | without a session the connection is closing exactly when a whole response was to be its last, or an exception, an error response, the head timeout or the transport cut it |
| PipelineTails.TailIsCalledFor | src/sonix/server/protocol.py:441-523 | over every interleaving what is behind the last request is what one parse of the octets calls for: 400 malformed, 413 too large, 501 another protocol, the check's status or a session for a handshake, and else nothing but a timeout |
| PipelineFlow.PausedMeansBacklog | src/sonix/server/protocol.py:679-704 | over every interleaving reading is paused only while some queue is above the resume mark, and one request's queue is below the pause mark whenever it is not |
| PipelineFlow.ResumesIffBacklogIsRead | src/sonix/server/protocol.py:660-677 | paused reading can go on before a loss if and only if some application that has not ended has a message left |
| PipelineFlow.ReceivesResume | src/sonix/server/protocol.py:660-677 | taking as many messages as are above the resume mark, or one, makes reading go on |
| PipelineUpgrade.ResponsesExactlyIfTimely | src/sonix/server/protocol.py:660-677 | when a session has just begun, responses keep their order on every later run if and only if its turn is open or no earlier application that has not ended has a message left to receive |
| PipelineOrder.WireExactlyIfQuiet | src/sonix/server/protocol.py:809-879 | then the whole wire stays in order on every later run whose accepts can be encoded, responses first and behind them nothing, a refusal, or 101 and whole frames with one close frame last, if and only if no such message is left |
| PipelineOrder.DecodingExactlyIfQuiet | src/sonix/server/protocol.py:809-826 | then what is decoded is a prefix of the octets held and the later reads, and all of that while the session is accepted and open, on every such run if and only if no such message is left or no octets are held |
| PipelineOrder.FirstRequestInOrder | src/sonix/server/protocol.py:708-765 | when the handshake is the first request, wire and decoding stay in order on every run whose accepts can be encoded |
| PipelineWitness.PongInsideResponse | src/sonix/server/protocol.py:828-837 | a request and a handshake in one segment, a response begun, one receive and a ping put a pong inside the response |
| PipelineWitness.OrderCanBreak | src/sonix/server/protocol.py:668-674 | that run for one request and one handshake written out, on every server whose limits and check let them in |
| Handshakes.SegmentReads | src/sonix/server/parser.py:279-321 | a printed request and a printed handshake behind it in one segment are read as both heads with the body between them |
| Handshakes.HandshakeIsOk | src/sonix/server/parser.py:323-338 | the handshake written out asks for a websocket and fits 128 octets of fields |
| PipelineBodies.BodiesAreIsolated | src/sonix/server/protocol.py:660-704 | over every interleaving each request's receives and queue are exactly its own body chunks as parsed, whole once complete, then at most one disconnect, repeated only on demand |
| PipelineBodies.RequestsOfShape | src/sonix/server/protocol.py:465-492 | handing chunks to the newest request gives each request of a stream exactly its own body |
| PipelineBodies.SessionGetsTheRest | src/sonix/server/protocol.py:708-714 | a websocket session starts with exactly the octets behind the blank line of its handshake, whatever requests came before and however the octets arrived |
| HttpConnections.DecideClientClose | src/sonix/server/protocol.py:166-175 | the loop over Connection fields decides closing as the set of all tokens does |
| HttpConnections.HttpConnection.constructor | src/sonix/server/protocol.py:311-354 | the state of a new connection, with the first turn open |
| HttpConnections.HttpConnection.DataReceived | src/sonix/server/protocol.py:441-463 | feeds the parser and acts on its events, or on the completed part of them and the error; once a session has begun, the octets go to it whatever turn it has |
| HttpConnections.HttpConnection.HandleEvent | src/sonix/server/protocol.py:465-500 | a head begins a request, a session or a refusal; a chunk goes to the newest request |
| HttpConnections.HttpConnection.BeginRequest | src/sonix/server/protocol.py:548-567 | the new task waits for the turnstile's event and leaves its own in its place |
| HttpConnections.HttpConnection.BeginWebsocket | src/sonix/server/protocol.py:708-765 | takes the parser's buffer, then a session or a refusal takes the turn |
| HttpConnections.HttpConnection.Fail | src/sonix/server/protocol.py:502-523 | no more input, and a response that waits for its turn |
| HttpConnections.HttpConnection.PushBodyChunk | src/sonix/server/protocol.py:679-704 | queues the chunk, and pauses reading at the mark |
| HttpConnections.HttpConnection.SendStart | src/sonix/server/protocol.py:609-631 | a response head up to its wait: repeated, bad, waiting or written |
| HttpConnections.HttpConnection.TurnArrives | src/sonix/server/protocol.py:631-640 | the head of the start that waited is written, unless the transport is closing; over every run `PipelineSent.SentIsSpoken` says which |
| HttpConnections.HttpConnection.SendBody | src/sonix/server/protocol.py:641-652 | a body part up to the drain |
| HttpConnections.HttpConnection.FinishBody | src/sonix/server/protocol.py:653-656 | the last part opens the next turn and may close |
| HttpConnections.HttpConnection.OnTaskDone | src/sonix/server/protocol.py:569-601 | unregisters the queue, opens the next turn, closes after an exception |
| HttpConnections.HttpConnection.Receive | src/sonix/server/protocol.py:660-677 | returns the oldest message or the disconnect, and resumes reading at the mark |
| HttpConnections.HttpConnection.WriteFailureResponse | src/sonix/server/protocol.py:525-546 | writes and closes, unless closing already |
| HttpConnections.HttpConnection.OnHeadTimeout | src/sonix/server/protocol.py:361-379 | answers 408 and closes when no head ever came |
| HttpConnections.HttpConnection.ConnectionLost | src/sonix/server/protocol.py:389-418 | every registered queue gets its one disconnect |
| WsSession.WireGrammar | src/sonix/server/protocol.py:708-1032 | over every interleaving the wire is empty, one refusal, or 101 and whole frames with at most one close frame and nothing behind it |
| WsSession.RefusalGrammar | src/sonix/server/protocol.py:757-765 | a refused handshake puts at most its one refusal on the wire |
| WsSession.StepKeepsWire | src/sonix/server/protocol.py:767-1032 | every step keeps the wire in order and, while it is open, in line with the session's state |
| WsSession.AcceptIsExact | src/sonix/server/protocol.py:973-993 | an accept keeps every later wire in order if and only if its subprotocol can be encoded |
| WsInbox.ReceivesInOrder | src/sonix/server/protocol.py:809-891 | over every run whose accepts are harmless the application receives connect, every data message of one decode of everything fed once and in order, then the first cause's disconnect; what is fed is a prefix of what followed the upgrade head, and with what is still held all of it |
| WsAccepts.AcceptOrderIsExact | src/sonix/server/protocol.py:973-993 | an accept keeps that order on every later run if and only if: after a loss, the octets held spell no data message; with a subprotocol that cannot be encoded, no octets are held, nothing is queued or the transport is closing |
| WsAccepts.LateAcceptIsExact | src/sonix/server/protocol.py:973-993 | after a late accept each single later run is in order if and only if the octets held spell no data message |
| WsAccepts.LateAcceptReopens | src/sonix/server/protocol.py:991-993 | a run that receives connect, disconnect 1006 and then a text message |
| WsAccepts.UnwrittenAcceptSkips | src/sonix/server/protocol.py:980-983 | a run that decodes a later octet without the one held before it |
| WsAccepts.NothingHeldNothingDisturbed | src/sonix/server/protocol.py:973-993 | when the client sent nothing behind its handshake, every run is in order whatever is accepted and when |
| WsCauses.EndedNeverBlocks | src/sonix/server/protocol.py:1034-1063 | over every run the disconnect is the first cause's, and once there is one `receive()` returns at once and, with an empty queue, returns it again and again |
| WsCauses.StepOwes | src/sonix/server/protocol.py:787-939 | every step sets the disconnect to the first cause only, keeps it exactly with the loss or the close, and never goes back to waiting for an accept |
| WsCauses.FeedEnds | src/sonix/server/protocol.py:809-826 | a feed ends an open session exactly when the decoder closes or reports a violation, with its code and text |
| WsInbox.FeedConserves | src/sonix/server/protocol.py:809-846 | one feed of an open session continues one decode of everything fed and queues exactly its data messages |
| WsInbox.StepKept | src/sonix/server/protocol.py:787-1063 | every step but a harmful accept keeps the count of messages and of octets |
| WsPeer.PeerReadsLiveSession | src/sonix/server/protocol.py:1016-1024 | a client's decoder reads back exactly the messages, pings and pongs that the session wrote |
| WsPeer.PeerReadsClose | src/sonix/server/protocol.py:1026-1032 | over every run whose wire ends in a close frame some code and reason became it, and a client reads everything before it, then that code and a whole-character prefix of the reason, or a protocol error for a code that none may send |
| WsPeer.CloseItemIsCloseFrame | src/sonix/server/protocol.py:854-867 | the close item on the wire is what encode_close_frame returns, and is missing exactly where that raises |
| WsHearing.ClientHearsTheRun | src/sonix/server/protocol.py:767-1032 | over every run the client gets, in order and nothing else, the 101 with the accept's subprotocol or the 403, then every text and octet string sent, every ping due, a pong with the octets of each ping read, and at most one close |
| WsHearing.ServerClosesAreHeard | src/sonix/server/protocol.py:787-939 | a handler that returns is heard as 1000, shutdown as 1001 and an unanswered ping as 1011, each with its text |
| WsHearing.ViolationsAreHeard | src/sonix/server/protocol.py:816-822 | a violation is heard as its code, 1002, 1007 or 1009, behind the answers to what came before it |
| WsConnections.WsConnection.constructor | src/sonix/server/protocol.py:722-737 | a new session: connect queued, reading paused |
| WsConnections.WsConnection.WsDataReceived | src/sonix/server/protocol.py:809-826 | clears the ping deadline, rearms, decodes and acts |
| WsConnections.WsConnection.HandleFrameEvent | src/sonix/server/protocol.py:828-852 | queue data, answer pings, match pongs, follow a close |
| WsConnections.WsConnection.WsAccept | src/sonix/server/protocol.py:973-993 | the steps of an accept in their order, with the error paths |
| WsConnections.WsConnection.WsDeny | src/sonix/server/protocol.py:995-1014 | a refusal instead of a 101 |
| WsConnections.WsConnection.SendMessage | src/sonix/server/protocol.py:941-971 | which messages each state takes, and which raise; what a client then decodes is `WsHearing.ClientHearsTheRun` |
| WsConnections.WsConnection.CloseAndFinish | src/sonix/server/protocol.py:854-879 | one close frame at most, tried once, then the end |
| WsConnections.WsConnection.EnqueueDisconnect | src/sonix/server/protocol.py:881-891 | the first cause is kept |
| WsConnections.WsConnection.ReceiveMessage | src/sonix/server/protocol.py:1034-1063 | the oldest message, or the disconnect again; reading resumes only once accepted |
| WsConnections.WsConnection.OnPingDue | src/sonix/server/protocol.py:787-807 | an unanswered ping aborts, otherwise one goes out |
| WsConnections.WsConnection.ShutdownWebsocket | src/sonix/server/protocol.py:893-907 | a live session is told 1001, a waiting one is ended |
| WsConnections.WsConnection.OnTaskDone | src/sonix/server/protocol.py:909-939 | a handler that returns ends the session with 1000 |
| WsConnections.WsConnection.OnConnectionLost | src/sonix/server/protocol.py:389-405 | 1006 unless a cause is known |
| DiPlans.BuildPlan | src/sonix/app/di.py:275-395 | the loop terminates on every graph and returns what the recursive definition returns, the first error included |
| DiPlans.PlanParam | src/sonix/app/di.py:309-387 | one parameter in the order of precedence: marker, connection, path, query |
| DiPlans.FlattenQuerySpecs | src/sonix/app/di.py:237-244 | the loop concatenates the parameters' own query specs and their dependencies' |
| DiPlans.FindTeardown | src/sonix/app/di.py:247-252 | true exactly when some parameter needs teardown |
| DiGraphs.PlannedIffAcyclic | src/sonix/app/di.py:293-296 | a plan exists if and only if no walk from the handler repeats a callable and every callable reached is inspectable with no refused parameter |
| DiGraphs.CircularMeansCycle | src/sonix/app/di.py:293-296 | a circular dependency is reported only with a walk that meets itself |
| DiGraphs.BuildFits | src/sonix/app/di.py:309-395 | a plan follows the graph, and every query parameter has the identity of its place |
| DiGraphs.FlatFieldsAreTheTree | src/sonix/app/di.py:237-252 | query_specs and needs_teardown are those of a full walk of the tree |
| DiMeaning.ClassifyExact | src/sonix/app/di.py:309-387 | which source a parameter has, read off its declaration: each source exactly under its own conditions, whatever the order of the tests |
| DiMeaning.RefusedExact | src/sonix/app/di.py:309-387 | a parameter is refused exactly when it has none of the four sources, and which two refusals name the other connection |
| DiMeaning.ScanMeans | src/sonix/app/di.py:505-535 | a parameter not carried is its default, else None when optional, else missing under its name; carried, its first value parsed, or for a list all of them in order, and an error for each that does not parse |
| DiMeaning.ResolveIsDeclared | src/sonix/app/di.py:582-641 | a plan built and run gives the errors of every query parameter in the tree, or the arguments, as the declarations alone say |
| DiResolving.ResolveQuery | src/sonix/app/di.py:505-535 | the value, the default, None, or every error of a list, which `DiMeaning.ScanMeans` reads off the declaration |
| DiResolving.ResolveAllScalars | src/sonix/app/di.py:538-554 | the values by identity and all errors in order |
| DiResolving.Resolver.CallDependency | src/sonix/app/di.py:557-579 | one call; a generator is entered on the stack |
| DiResolving.Resolver.SupplyDependency | src/sonix/app/di.py:582-596 | the cached value, or a call with its own arguments resolved first |
| DiResolving.Resolver.ResolveParams | src/sonix/app/di.py:599-621 | the loop fills the keyword arguments and stops at the first exception |
| DiResolving.RunPlan | src/sonix/app/di.py:624-641 | resolve as a whole: the answer, and the calls, cache and stack behind it, are those of the function that the theorems are about |
| DiRefinement.ResolveIsPlain | src/sonix/app/di.py:582-641 | cache, flattened parameters and the trivial fast path give the answer of the uncached recursion: keyword arguments, exception or validation errors |
| DiRefinement.NothingRunsOnBadQuery | src/sonix/app/di.py:538-554 | if any query parameter of the tree fails, every error is reported in order and no callable was called |
| DiRefinement.CalledAtMostOnce | src/sonix/app/di.py:582-596 | a callable whose every marker uses the cache is called at most once |
| DiRefinement.TornDownBeforeItsInputs | src/sonix/app/di.py:557-579 | each entered generator is torn down once, before every generator it was given, directly, through others or from the cache |
| DiRefinement.NoTeardownNoGenerator | src/sonix/app/di.py:247-252 | a plan that asks for no stack calls no generator |
| DiRefinement.WalkDistinct | src/sonix/app/di.py:538-554 | no two query parameters of a tree share an identity, so keying by it is sound |
| DiRefinement.SamePlain | src/sonix/app/di.py:582-596 | two plans of one callable evaluate alike, so keying the cache by callable is sound |
| DiRefinement.NotInItself | src/sonix/app/di.py:293-296 | no plan names its own callable, at any depth |

## Left out

- PipelineTurns.ResponsesInOrder: assumes what the source demands of applications: each send is awaited (a task may receive meanwhile), nothing is sent behind a final body or a failed send, and a task returns only with its response complete or raises, in which case its callback closes the transport.
- PipelineTurns.EarliestHasItsTurn: says that no request can keep the earliest from writing; that it does write is up to its application and to the transport draining.
- PipelineSessions.ErrorResponseIsLast: does not say that an error response is eventually written; an application that waits for the rest of a body that failed to parse holds its turn.
- PipelineBodies.BodiesAreIsolated: reading pauses and resumes at the two marks, but no claim is made that it always resumes; an application may ignore its body.
- WsSession.WireGrammar: the connection's first request is the handshake, so its turn is open from the start. The same grammar behind other requests is `PipelineOrder.WireExactlyIfQuiet`; the inbox, the causes and the client's reading are proved for a session on a connection of its own only.
- HttpConnections.HttpConnection.SessionData: the pipelined connection's class holds the session as a value; its update in place is `WsConnections.WsConnection`.
- WsInbox.ReceivesInOrder: one application receiver a session.
- DiRefinement.ResolveIsPlain: dependencies are pure functions of their keyword arguments, as the refinement needs; they may raise. What a generator does behind its yield, and exceptions during teardown, are not modelled.
- The text of a frame violation is a parameter, an ASCII function of the decoder's state and its input; the ping's four random octets are one too.
- DiResolving.RunPlan: `resolve` is given a stack exactly when the plan needs one, as its two callers in `src/sonix/app/applications.py` do.
- HttpParsing.HTTP11Parser.FeedData: the parser's state after an exception is not specified; the connection never feeds it again.
- HttpParsing.HTTP11Parser.ReadContentLength: Python's limit on the digits that `int()` accepts.
- FrameRoundTrip.StreamRoundTrip: only encode-then-decode; the decoder also takes lengths that are not in their shortest form.
- The octets of response heads, the 101 and refusals: wire items stand for them. SHA-1, base64 and reason phrases are opaque; the handshake check is a parameter.
- A transport that is closing delivers no more octets, as asyncio's does not.
- Clocks and timers: a timer fires at any time while it is armed. Write backpressure only delays a task, as the stage it waits in.
- An exit stack's callbacks themselves, `asyncio.to_thread`, and the event loop's scheduling beyond the order of steps.
- `inspect` and type hints: a declaration comes with its kind, marker, unwrapped annotation and default; parsing a scalar from text is a parameter.
- In the parser's class the fields that belong to one request's header lines are one record.
- Routing, middleware, responses, lifespan, server start and stop, logging and the command line.
